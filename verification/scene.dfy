/**
 * The assembled scene: the solar system's objects in the order the camera's
 * traversal visits them, and the stream of user and frame events that write
 * the shared view state. Two whole-system facts are proved here: the
 * camera's radius lookup always finds the selected planet's own sphere, and
 * every state reachable from the initial one selects and hovers only
 * registered planets, with a camera-mode label that agrees with the
 * selection.
 */
module Scene {
  import opened Types
  import opened Vector3
  import opened Constants
  import opened CameraController
  import opened SolarSystem
  import opened Store

  // ---------------------------------------------------------------------
  // The scene graph in traversal order
  // ---------------------------------------------------------------------

  /** A scene node that is not a mesh (the root, lights, star field, groups). */
  function Node(): SceneObject
  {
    SceneObject(NonMesh, 0.0, Origin)
  }

  /** The Sun: a group holding its core sphere and two glow spheres, all three
      built with radius 7 (the glow spheres are scaled, their geometry is not). */
  function SunObjects(): seq<SceneObject>
  {
    [Node(),
     SceneObject(Mesh(SphereGeometry), SUN_RADIUS, Origin),
     SceneObject(Mesh(SphereGeometry), SUN_RADIUS, Origin),
     SceneObject(Mesh(SphereGeometry), SUN_RADIUS, Origin)]
  }

  /** A planet's group: its orbit ring(s), centred on the ellipse's centre,
      then its sphere at `position`, then (for saturn) the ring mesh attached
      to the sphere. Ring geometries carry no sphere radius; 0 stands for it. */
  function PlanetObjects(p: PlanetSpec, position: Vec3): seq<SceneObject>
  {
    var centre := Vec3(-(p.distance * EffectiveEccentricity(p)), 0.0, 0.0);
    var rings :=
      if p.id == "mercury" then [SceneObject(Mesh(RingGeometry), 0.0, Origin)]
      else [SceneObject(Mesh(RingGeometry), 0.0, centre), SceneObject(Mesh(RingGeometry), 0.0, centre)];
    [Node()] + rings + [SceneObject(Mesh(SphereGeometry), p.radius, position)]
      + (if p.id == "saturn" then [SceneObject(Mesh(RingGeometry), 0.0, position)] else [])
  }

  function AllPlanetObjects(ps: seq<PlanetSpec>, positions: seq<Vec3>): seq<SceneObject>
    requires |ps| == |positions|
  {
    if ps == [] then [] else PlanetObjects(ps[0], positions[0]) + AllPlanetObjects(ps[1..], positions[1..])
  }

  /** The whole scene with the planets at `positions` (one per registry entry):
      the root, the two lights and the star field, then the solar system group
      holding the Sun and the planets in registry order. */
  function SceneGraph(positions: seq<Vec3>): seq<SceneObject>
    requires |positions| == |PLANETS|
  {
    [Node(), Node(), Node(), Node(), Node()] + SunObjects() + AllPlanetObjects(PLANETS, positions)
  }

  /** The world position the lookup reports for `radius`, if any. */
  function MatchedPosition(scene: seq<SceneObject>, radius: real): Option<Vec3>
  {
    match FirstMatch(scene, radius)
    case None => None
    case Some(i) => Some(scene[i].worldPosition)
  }

  lemma MatchedPositionAppend(a: seq<SceneObject>, b: seq<SceneObject>, radius: real)
    ensures MatchedPosition(a + b, radius) ==
      if MatchedPosition(a, radius).Some? then MatchedPosition(a, radius) else MatchedPosition(b, radius)
  {
    FirstMatchAppend(a, b, radius);
    var fa := FirstMatch(a, radius);
    var fb := FirstMatch(b, radius);
    if fa.Some? {
      assert (a + b)[fa.value] == a[fa.value];
    } else if fb.Some? {
      assert (a + b)[|a| + fb.value] == b[fb.value];
    }
  }

  /** Within one planet's group the lookup finds the planet's sphere exactly
      when its radius is within the tolerance; rings never match. */
  lemma PlanetObjectsLookup(p: PlanetSpec, position: Vec3, radius: real)
    ensures MatchedPosition(PlanetObjects(p, position), radius) ==
      if Abs(p.radius - radius) < RADIUS_TOLERANCE then Some(position) else None
  {
    var objs := PlanetObjects(p, position);
    var sphere := if p.id == "mercury" then 2 else 3;
    assert objs[sphere] == SceneObject(Mesh(SphereGeometry), p.radius, position);
    forall j | 0 <= j < |objs| && j != sphere ensures !IsPlanetMesh(objs[j], radius) {
    }
  }

  /** With pairwise separated radii, looking up the k-th planet's radius among
      all planet groups yields the k-th planet's position. */
  lemma {:induction false} AllPlanetObjectsLookup(ps: seq<PlanetSpec>, positions: seq<Vec3>, k: int)
    requires |ps| == |positions| && RadiiSeparated(ps)
    requires 0 <= k < |ps|
    ensures MatchedPosition(AllPlanetObjects(ps, positions), ps[k].radius) == Some(positions[k])
  {
    var r := ps[k].radius;
    var head := PlanetObjects(ps[0], positions[0]);
    var rest := AllPlanetObjects(ps[1..], positions[1..]);
    MatchedPositionAppend(head, rest, r);
    PlanetObjectsLookup(ps[0], positions[0], r);
    if k > 0 {
      assert Abs(ps[0].radius - r) > RADIUS_TOLERANCE;
      var tail := ps[1..];
      assert RadiiSeparated(tail) by {
        forall i, j | 0 <= i < j < |tail|
          ensures Abs(tail[i].radius - tail[j].radius) > RADIUS_TOLERANCE
        {
          assert tail[i] == ps[i + 1] && tail[j] == ps[j + 1];
        }
      }
      assert tail[k - 1] == ps[k];
      AllPlanetObjectsLookup(tail, positions[1..], k - 1);
    }
  }

  /** No planet's radius is within the tolerance of the Sun's 7. */
  lemma SunNeverMatchesPlanet(k: int)
    requires 0 <= k < |PLANETS|
    ensures Abs(SUN_RADIUS - PLANETS[k].radius) > RADIUS_TOLERANCE
  {
    RegistryIndex(k);
  }

  /** The camera's lookup for any registered planet finds that planet's own
      sphere: neither the Sun nor another planet shadows it. */
  lemma SceneLookupFindsPlanet(positions: seq<Vec3>, k: int)
    requires |positions| == |PLANETS| && 0 <= k < |PLANETS|
    ensures MatchedPosition(SceneGraph(positions), PLANETS[k].radius) == Some(positions[k])
  {
    var r := PLANETS[k].radius;
    var prefix := [Node(), Node(), Node(), Node(), Node()] + SunObjects();
    SunNeverMatchesPlanet(k);
    assert MatchedPosition(prefix, r) == None by {
      forall j | 0 <= j < |prefix| ensures !IsPlanetMesh(prefix[j], r) {
      }
    }
    RegistryRadiiSeparated();
    AllPlanetObjectsLookup(PLANETS, positions, k);
    MatchedPositionAppend(prefix, AllPlanetObjects(PLANETS, positions), r);
  }

  /** In the assembled scene, a selected planet is always tracked: the
      look-at point and the camera move toward that planet's position and
      its shoulder pose, whatever the gesture. */
  lemma CameraTracksSelectedPlanet(pose: Pose, positions: seq<Vec3>, k: int, gesture: GestureType)
    requires |positions| == |PLANETS| && 0 <= k < |PLANETS|
    ensures CameraStep(pose, Some(PLANETS[k].id), gesture, SceneGraph(positions)) ==
      Pose(Lerp(pose.position, Add(positions[k], ShoulderOffset(PLANETS[k].radius)), LOCKED_MOVE_FACTOR),
           Lerp(pose.lookAt, positions[k], LOCKED_LOOK_FACTOR))
  {
    RegistryEntriesValid();
    FindRegistered(PLANETS[k].id);
    SceneLookupFindsPlanet(positions, k);
  }

  // ---------------------------------------------------------------------
  // Events that write the view state
  // ---------------------------------------------------------------------

  /** Everything that calls a setter: planet and Sun clicks, hovering, the
      speed slider, the gesture layer, the gesture toggle, and the camera's
      per-frame VICTORY check. Planets are named by their registry index. */
  datatype Event =
    | PlanetClicked(k: nat)
    | SunClicked
    | PlanetPointerOver(k: nat)
    | PlanetPointerOut
    | SpeedSliderMoved(speed: real)
    | GestureDetected(gesture: GestureType, confidence: real)
    | GestureToggled
    | CameraFrame

  predicate ValidEvent(ev: Event)
  {
    match ev
    case PlanetClicked(k) => k < |PLANETS|
    case PlanetPointerOver(k) => k < |PLANETS|
    case _ => true
  }

  /** The state after one event. The camera frame reads the selection and
      gesture as last rendered, which are the current ones here. */
  function Apply(s: ViewState, ev: Event): ViewState
    requires ValidEvent(ev)
  {
    match ev
    case PlanetClicked(k) => AfterSetActivePlanet(s, ClickSelection(s.activePlanetId, PLANETS[k].id))
    case SunClicked => AfterSetActivePlanet(s, None)
    case PlanetPointerOver(k) => AfterSetHoveredPlanet(s, Some(PLANETS[k].id))
    case PlanetPointerOut => AfterSetHoveredPlanet(s, None)
    case SpeedSliderMoved(v) => AfterSetSimulationSpeed(s, v)
    case GestureDetected(g, c) => AfterSetGesture(s, g, c)
    case GestureToggled => AfterToggleGestureControl(s)
    case CameraFrame =>
      if RequestsReset(s.activePlanetId, s.currentGesture) then AfterSetActivePlanet(s, None) else s
  }

  function Run(s: ViewState, evs: seq<Event>): ViewState
    requires forall i :: 0 <= i < |evs| ==> ValidEvent(evs[i])
    decreases |evs|
  {
    if evs == [] then s else Run(Apply(s, evs[0]), evs[1..])
  }

  /** An optional id that is either absent or names a registry entry. */
  predicate NoneOrRegistered(id: Option<string>)
  {
    id.None? || IsRegistered(id.value)
  }

  predicate Invariant(s: ViewState)
  {
    Consistent(s) && NoneOrRegistered(s.activePlanetId) && NoneOrRegistered(s.hoveredPlanetId)
  }

  /** Every event keeps the selection and the hover within the registry and
      the mode label consistent. */
  lemma ApplyPreservesInvariant(s: ViewState, ev: Event)
    requires Invariant(s) && ValidEvent(ev)
    ensures Invariant(Apply(s, ev))
  {
    match ev
    case PlanetClicked(k) =>
      assert IsRegistered(PLANETS[k].id);
    case PlanetPointerOver(k) =>
      assert IsRegistered(PLANETS[k].id);
    case _ =>
  }

  lemma {:induction false} RunPreservesInvariant(s: ViewState, evs: seq<Event>)
    requires Invariant(s)
    requires forall i :: 0 <= i < |evs| ==> ValidEvent(evs[i])
    ensures Invariant(Run(s, evs))
    decreases |evs|
  {
    if evs != [] {
      ApplyPreservesInvariant(s, evs[0]);
      RunPreservesInvariant(Apply(s, evs[0]), evs[1..]);
    }
  }

  /**
   * In every state reachable from the initial one, the active and hovered
   * ids are absent or registered, the mode label is never `FREE`, and it is
   * `LOCKED` exactly when a planet is selected.
   */
  lemma ReachableStatesWellFormed(evs: seq<Event>)
    requires forall i :: 0 <= i < |evs| ==> ValidEvent(evs[i])
    ensures Invariant(Run(InitialState(), evs))
    ensures Run(InitialState(), evs).cameraMode != Free
    ensures Run(InitialState(), evs).cameraMode == Locked <==> Run(InitialState(), evs).activePlanetId.Some?
  {
    RunPreservesInvariant(InitialState(), evs);
    var s := Run(InitialState(), evs);
    if s.activePlanetId.Some? {
      RegistryEntriesValid();
      var k :| 0 <= k < |PLANETS| && PLANETS[k].id == s.activePlanetId.value;
    }
  }

  /** Selecting earth locks the camera; a VICTORY gesture followed by a
      camera frame clears the selection and returns the label to `ORBITAL`. */
  lemma EarthThenVictory()
    ensures
      var selected := Run(InitialState(), [PlanetClicked(2)]);
      selected.activePlanetId == Some("earth") && selected.cameraMode == Locked
    ensures
      var reset := Run(InitialState(), [PlanetClicked(2), GestureDetected(Victory, 0.95), CameraFrame]);
      reset.activePlanetId == None && reset.cameraMode == Orbital
  {
    var s1 := Apply(InitialState(), PlanetClicked(2));
    var s2 := Apply(s1, GestureDetected(Victory, 0.95));
    var s3 := Apply(s2, CameraFrame);
    assert Run(InitialState(), [PlanetClicked(2)]) == s1 by {
      assert [PlanetClicked(2)][1..] == [];
    }
    var evs := [PlanetClicked(2), GestureDetected(Victory, 0.95), CameraFrame];
    assert evs[1..][1..][1..] == [];
    assert Run(InitialState(), evs) == s3;
  }
}
