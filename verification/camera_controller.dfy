/**
 * The camera targeting step run once per frame. With a planet selected the
 * camera looks for that planet's sphere in the scene (by its radius) and
 * eases the look-at point and the camera position toward it; with nothing
 * selected it eases the look-at point back to the origin, and pulls the
 * camera to an overview pose while the gesture is POINTING. A VICTORY
 * gesture asks the store to clear the selection.
 *
 * The scene is a flat list of objects in traversal order; the camera's
 * orientation (`camera.lookAt`) is represented by the stored look-at point.
 */
module CameraController {
  import opened Types
  import opened Vector3
  import opened Constants
  import Store

  datatype Geometry = SphereGeometry | RingGeometry | OtherGeometry

  datatype ObjectKind = Mesh(geometry: Geometry) | NonMesh

  /** One node of the scene graph: what it is, the radius its geometry was
      built with (only read for spheres), and its world position. */
  datatype SceneObject = SceneObject(kind: ObjectKind, radius: real, worldPosition: Vec3)

  /** A sphere mesh whose geometry radius is within the tolerance of `radius`. */
  predicate IsPlanetMesh(o: SceneObject, radius: real)
  {
    o.kind == Mesh(SphereGeometry) && Abs(o.radius - radius) < RADIUS_TOLERANCE
  }

  /** The position, in traversal order, of the first sphere mesh matching `radius`. */
  function FirstMatch(scene: seq<SceneObject>, radius: real): (r: Option<nat>)
    ensures r.Some? ==>
      && r.value < |scene|
      && IsPlanetMesh(scene[r.value], radius)
      && forall j :: 0 <= j < r.value ==> !IsPlanetMesh(scene[j], radius)
    ensures r.None? <==> forall j :: 0 <= j < |scene| ==> !IsPlanetMesh(scene[j], radius)
  {
    if scene == [] then None
    else if IsPlanetMesh(scene[0], radius) then Some(0)
    else match FirstMatch(scene[1..], radius)
      case None => None
      case Some(k) => Some(k + 1)
  }

  /** Searching a concatenation searches the first part, then the second. */
  lemma {:induction false} FirstMatchAppend(a: seq<SceneObject>, b: seq<SceneObject>, radius: real)
    ensures FirstMatch(a + b, radius) ==
      match FirstMatch(a, radius)
      case Some(i) => Some(i)
      case None => match FirstMatch(b, radius)
        case None => None
        case Some(k) => Some(|a| + k)
  {
    var ab := a + b;
    var fa := FirstMatch(a, radius);
    if fa.Some? {
      assert ab[fa.value] == a[fa.value];
      forall j | 0 <= j < fa.value ensures !IsPlanetMesh(ab[j], radius) {
        assert ab[j] == a[j];
      }
    } else {
      var fb := FirstMatch(b, radius);
      forall j | 0 <= j < |a| ensures !IsPlanetMesh(ab[j], radius) {
        assert ab[j] == a[j];
      }
      if fb.Some? {
        assert ab[|a| + fb.value] == b[fb.value];
        forall j | |a| <= j < |a| + fb.value ensures !IsPlanetMesh(ab[j], radius) {
          assert ab[j] == b[j - |a|];
        }
      } else {
        forall j | |a| <= j < |ab| ensures !IsPlanetMesh(ab[j], radius) {
          assert ab[j] == b[j - |a|];
        }
      }
    }
  }

  /**
   * The scene traversal: visits every object, and records the world position
   * of the first matching sphere mesh. When nothing matches, the target stays
   * the zero vector it was created as.
   */
  method FindPlanetMesh(scene: seq<SceneObject>, radius: real) returns (found: bool, targetPos: Vec3)
    ensures found <==> FirstMatch(scene, radius).Some?
    ensures found ==> targetPos == scene[FirstMatch(scene, radius).value].worldPosition
    ensures !found ==> targetPos == Origin
  {
    targetPos := Origin;
    found := false;
    ghost var at := 0;
    var i := 0;
    while i < |scene|
      invariant 0 <= i <= |scene|
      invariant !found ==> targetPos == Origin && forall j :: 0 <= j < i ==> !IsPlanetMesh(scene[j], radius)
      invariant found ==> at < i && IsPlanetMesh(scene[at], radius) && targetPos == scene[at].worldPosition
      invariant found ==> forall j :: 0 <= j < at ==> !IsPlanetMesh(scene[j], radius)
    {
      var child := scene[i];
      if !found && child.kind == Mesh(SphereGeometry) {
        if Abs(child.radius - radius) < RADIUS_TOLERANCE {
          targetPos := child.worldPosition;
          found := true;
          at := i;
        }
      }
      i := i + 1;
    }
  }

  /** The camera's position and the point it is aimed at. */
  datatype Pose = Pose(position: Vec3, lookAt: Vec3)

  const LOCKED_LOOK_FACTOR: real := 0.1
  const LOCKED_MOVE_FACTOR: real := 0.05
  const FREE_LOOK_FACTOR: real := 0.05
  const FREE_MOVE_FACTOR: real := 0.02
  const SHOULDER_DIRECTION: Vec3 := Vec3(10.0, 5.0, 10.0)
  const OVERVIEW_POSITION: Vec3 := Vec3(0.0, 40.0, 60.0)

  /** Where the camera settles relative to a planet: a fixed "shoulder"
      direction scaled by 0.8 times the planet's radius. */
  function ShoulderOffset(radius: real): Vec3
  {
    Scale(SHOULDER_DIRECTION, radius * 0.8)
  }

  /** Whether a frame asks the store to clear the selection. */
  predicate RequestsReset(activePlanetId: Option<string>, gesture: GestureType)
  {
    gesture == Victory && Truthy(activePlanetId)
  }

  /**
   * The pose after one frame. `activePlanetId` and `gesture` are the values
   * captured when the controller last rendered; a reset requested in this
   * frame does not change the branch taken.
   */
  function CameraStep(pose: Pose, activePlanetId: Option<string>, gesture: GestureType,
                      scene: seq<SceneObject>): Pose
  {
    if Truthy(activePlanetId) then
      match Find(activePlanetId.value)
      case None => pose
      case Some(planet) =>
        match FirstMatch(scene, planet.radius)
        case None => pose
        case Some(i) =>
          var target := scene[i].worldPosition;
          Pose(Lerp(pose.position, Add(target, ShoulderOffset(planet.radius)), LOCKED_MOVE_FACTOR),
               Lerp(pose.lookAt, target, LOCKED_LOOK_FACTOR))
    else
      Pose(if gesture == Pointing then Lerp(pose.position, OVERVIEW_POSITION, FREE_MOVE_FACTOR) else pose.position,
           Lerp(pose.lookAt, Origin, FREE_LOOK_FACTOR))
  }

  /** A selected id that names no registry entry leaves the pose as it is. */
  lemma UnknownPlanetKeepsPose(pose: Pose, activePlanetId: Option<string>, gesture: GestureType,
                               scene: seq<SceneObject>)
    requires Truthy(activePlanetId) && !IsRegistered(activePlanetId.value)
    ensures CameraStep(pose, activePlanetId, gesture, scene) == pose
  {
    FindRegistered(activePlanetId.value);
  }

  /** If no sphere in the scene matches the selected planet, the pose is kept. */
  lemma LookupMissKeepsPose(pose: Pose, activePlanetId: Option<string>, gesture: GestureType,
                            scene: seq<SceneObject>)
    requires Truthy(activePlanetId) && Find(activePlanetId.value).Some?
    requires forall j :: 0 <= j < |scene| ==> !IsPlanetMesh(scene[j], Find(activePlanetId.value).value.radius)
    ensures CameraStep(pose, activePlanetId, gesture, scene) == pose
  {
  }

  /**
   * With a planet selected and its sphere found at `target`, the look-at
   * point closes 10% of its distance to `target` and the camera 5% of its
   * distance to the shoulder pose beside it, on every axis and without
   * overshooting; this holds for every gesture, so the frame that requests
   * a VICTORY reset still tracks the planet.
   */
  lemma LockedStepTracksPlanet(pose: Pose, activePlanetId: Option<string>, gesture: GestureType,
                               scene: seq<SceneObject>, k: nat)
    requires Truthy(activePlanetId)
    requires 0 <= k < |PLANETS| && PLANETS[k].id == activePlanetId.value
    requires FirstMatch(scene, PLANETS[k].radius).Some?
    ensures
      var target := scene[FirstMatch(scene, PLANETS[k].radius).value].worldPosition;
      var goal := Add(target, ShoulderOffset(PLANETS[k].radius));
      var next := CameraStep(pose, activePlanetId, gesture, scene);
      && Sub(next.lookAt, target) == Scale(Sub(pose.lookAt, target), 0.9)
      && Sub(next.position, goal) == Scale(Sub(pose.position, goal), 0.95)
      && Between(pose.lookAt.x, next.lookAt.x, target.x)
      && Between(pose.lookAt.y, next.lookAt.y, target.y)
      && Between(pose.lookAt.z, next.lookAt.z, target.z)
  {
    FindRegistered(activePlanetId.value);
  }

  /**
   * With nothing selected the look-at point shrinks to 95% of itself, and
   * the camera closes 2% of its distance to the overview pose exactly when
   * the gesture is POINTING; otherwise it does not move.
   */
  lemma FreeStepRelaxes(pose: Pose, activePlanetId: Option<string>, gesture: GestureType,
                        scene: seq<SceneObject>)
    requires !Truthy(activePlanetId)
    ensures
      var next := CameraStep(pose, activePlanetId, gesture, scene);
      && next.lookAt == Scale(pose.lookAt, 0.95)
      && (gesture == Pointing ==>
            Sub(next.position, OVERVIEW_POSITION) == Scale(Sub(pose.position, OVERVIEW_POSITION), 0.98))
      && (gesture != Pointing ==> next.position == pose.position)
  {
    LerpToOrigin(pose.lookAt, FREE_LOOK_FACTOR);
  }

  /** The camera and the look-at point the controller keeps between frames. */
  class CameraRig {
    var position: Vec3   // the camera's position
    var lookAt: Vec3     // the smoothed look-at point (`currentLookAt`)

    function CurrentPose(): Pose
      reads this
    {
      Pose(position, lookAt)
    }

    /** The look-at point starts at the origin. */
    constructor (initialPosition: Vec3)
      ensures position == initialPosition && lookAt == Origin
    {
      position := initialPosition;
      lookAt := Origin;
    }

    /**
     * One frame. `activePlanetId` and `currentGesture` are the store values
     * captured at the controller's last render; `delta` and `elapsed` (the
     * frame time and the clock) are accepted and never influence the result.
     * The only store write is the VICTORY reset.
     */
    method Frame(store: Store.ViewStore, activePlanetId: Option<string>, currentGesture: GestureType,
                 scene: seq<SceneObject>, delta: real, elapsed: real)
      requires store.Valid()
      modifies this, store
      ensures store.Valid()
      ensures store.State() ==
        if RequestsReset(activePlanetId, currentGesture)
        then Store.AfterSetActivePlanet(old(store.State()), None)
        else old(store.State())
      ensures CurrentPose() == CameraStep(old(CurrentPose()), activePlanetId, currentGesture, scene)
    {
      if currentGesture == Victory {
        if Truthy(activePlanetId) {
          store.SetActivePlanet(None);
        }
      }

      if Truthy(activePlanetId) {
        var planetData := Find(activePlanetId.value);
        if planetData.None? {
          return;
        }
        var found, targetPos := FindPlanetMesh(scene, planetData.value.radius);
        if found {
          lookAt := Lerp(lookAt, targetPos, LOCKED_LOOK_FACTOR);
          var offset := ShoulderOffset(planetData.value.radius);
          var cameraTargetPos := Add(targetPos, offset);
          position := Lerp(position, cameraTargetPos, LOCKED_MOVE_FACTOR);
        }
      } else {
        lookAt := Lerp(lookAt, Origin, FREE_LOOK_FACTOR);
        if currentGesture == Pointing {
          position := Lerp(position, OVERVIEW_POSITION, FREE_MOVE_FACTOR);
        }
      }
    }
  }
}
