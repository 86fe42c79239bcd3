# Helios solar-system view: a verified model of its core logic

Helios is a browser visualiser of the solar system. The Sun and eight planets
are drawn with three.js, and the viewer steers the camera with mouse clicks or
hand gestures. This project models the system's computational core in Dafny
and proves properties about it. The core has four pieces:

- **The shared view state** (`store.ts`). This is a singleton record with
  seven fields and five setters. Selecting a planet also derives a
  camera-mode label: `LOCKED` when the id is truthy, `ORBITAL` otherwise.
  It is modelled in `store.dfy`:
  - the class `ViewStore` has one method per setter;
  - each method is proved against a pure `After…` function;
  - the lemmas are about those functions.
- **The camera targeting step** (`components/CameraController.tsx`). Every
  frame:
  - a VICTORY gesture clears the selection;
  - with a planet selected, the scene is traversed for the first sphere
    whose radius is within 0.01 of the planet's. The look-at point then
    eases 10% of the way toward that sphere, and the camera 5% of the way
    toward a "shoulder" pose beside it;
  - with nothing selected, the look-at point eases 5% toward the origin. The
    camera eases 2% toward the overview pose (0, 40, 60), but only while the
    gesture is POINTING.

  In `camera_controller.dfy`:
  - the scene is a sequence of objects in traversal order;
  - the traversal is a loop method, `FindPlanetMesh`;
  - the pose lives in the class `CameraRig`. Its `Frame` method is proved
    against the pure step `CameraStep`.
- **Planet orbit bookkeeping** (`components/SolarSystem.tsx`). Each planet
  derives its orbit from its registry entry: `a` is the distance; `e` is the
  eccentricity, forced to 0 for mercury; `b = a·√(1−e²)`; `c = a·e`. Every
  frame the planet advances its orbital angle, places its mesh on the
  ellipse with the Sun at a focus (mercury uses a circle) and spins it. The
  click and hover handlers write the selection and the hover.

  In `solar_system.dfy`:
  - the class `PlanetBody` holds the mutable angle, position and spin;
  - the handlers are methods over the store.
- **The planet registry** (`constants.ts`). This is a fixed eight-entry
  table. `constants.dfy` holds it as a constant sequence and proves its
  well-formedness predicate. The predicate covers:
  - distinct ids;
  - proper orbits;
  - distances increasing and speeds decreasing outward;
  - radii far enough apart for the camera's radius lookup.

`scene.dfy` assembles these pieces:
- the scene graph, in the order the camera traverses it;
- the stream of events that call the setters.

It proves two whole-system facts:
- the camera's lookup always finds the selected planet's own sphere;
- every reachable state has a camera-mode label that agrees with the
  selection, and selects and hovers only registered planets.

The model makes these representation choices:
- JavaScript `null` is `None`.
- A truthy id is `Some(s)` with `s` non-empty.
- Vectors are triples of reals.

Three details of the code are easy to misread:
- `FREE` is declared as a camera-mode label (types.ts:36), but no code ever
  stores it. The initial label is `ORBITAL` (store.ts:7), and selecting a
  planet stores either `LOCKED` or `ORBITAL` (store.ts:15).
- `setSimulationSpeed` stores its argument unclamped (store.ts:18). The
  [0, 5] range is only the slider's minimum and maximum
  (components/HUD.tsx:43-49).
- The controller reads the selection captured at its last render
  (components/CameraController.tsx:12). So in the frame that calls
  `setActivePlanet(null)` on VICTORY (line 22), the camera still takes the
  locked branch at line 26. The unlocked behaviour starts from the next
  frame.

## Model

| member | source | states |
|---|---|---|
| Vector3.LerpAxis | components/CameraController.tsx:47 | after one lerp, the distance to the target is the old distance times (1 − t); for t in [0, 1] the new value lies between the old value and the target, so it never overshoots |
| Vector3.Lerp | components/CameraController.tsx:53 | `Vector3.lerp` on all three axes: the offset from the target shrinks by exactly (1 − t), and no axis overshoots for t in [0, 1] |
| Vector3.LerpToOrigin | components/CameraController.tsx:58 | lerping toward the origin scales the vector by (1 − t) |
| Constants.FindIn | constants.ts:10-163 | `PLANETS.find` by id: a result is an entry carrying that id; there is no result exactly when no entry has the id |
| Constants.FindInDistinct | constants.ts:10-163 | when ids are distinct, looking up the id of entry k returns entry k |
| Constants.FindRegistered | constants.ts:10-163 | the registry lookup succeeds exactly on the eight registered ids, and returns the entry registered under that id |
| Constants.NeighboursOrderAll | constants.ts:10-163 | ordering between each pair of neighbouring entries extends to every pair of entries |
| Constants.RegistryEntriesValid | constants.ts:15-149 | every entry has a non-empty id, positive radius, distance and speed, and an eccentricity in [0, 1) |
| Constants.RegistryDistinctIds | constants.ts:10-163 | the eight ids are pairwise distinct |
| Constants.RegistryOrderedOutward | constants.ts:16-150 | distance strictly increases and speed strictly decreases along the table |
| Constants.RegistryRadiiSeparated | constants.ts:15-148 | any two planet radii differ by more than the 0.01 lookup tolerance |
| Constants.RegistryWellFormed | constants.ts:10-163 | the table has exactly eight entries and is well formed; its first entry is mercury, with eccentricity 0 |
| Constants.PLANETS | constants.ts:10-163 | the eight-entry table with each planet's id, name, radius, distance, speed and orbital eccentricity, in table order; its properties are the Registry… lemmas above |
| Constants.Find | components/CameraController.tsx:27 | the controller's `PLANETS.find` by the selected id; `FindRegistered` proves it succeeds exactly on registered ids and returns that id's entry |
| Store.AfterSetActivePlanet | store.ts:13-16 | `setActivePlanet(id)` stores the id, and sets the mode to LOCKED exactly when the id is truthy (ORBITAL otherwise); the result is consistent; no field other than these two changes |
| Store.AfterSetHoveredPlanet | store.ts:17 | stores the hovered id and changes nothing else |
| Store.AfterSetSimulationSpeed | store.ts:18 | stores the speed as given, with no clamping, and changes nothing else |
| Store.AfterSetGesture | store.ts:19 | stores the gesture and its confidence and changes nothing else |
| Store.AfterToggleGestureControl | store.ts:20 | negates the gesture-enabled flag; that flag is the only field that changes |
| Store.InitialState | store.ts:5-11 | the store's initial record; `InitialStateConsistent` proves it selects nothing and is labelled consistently |
| Store.InitialStateConsistent | store.ts:5-11 | the initial state selects nothing, and its ORBITAL label is consistent |
| Store.SetActivePlanetIdempotent | store.ts:13-16 | selecting the same id twice gives the same state as selecting it once |
| Store.ToggleTwiceRestores | store.ts:20 | toggling gesture control twice restores the original state |
| Store.SettersPreserveConsistency | store.ts:17-20 | the setters that do not touch the selection keep the mode label consistent with it |
| Store.ViewStore.constructor | store.ts:4-11 | the store starts with no active or hovered planet, mode ORBITAL, speed 1, gesture IDLE, confidence 0, and gesture control enabled |
| Store.ViewStore.SetActivePlanet | store.ts:13-16 | overwrites the active id and the mode label as `AfterSetActivePlanet` says, and keeps the store consistent |
| Store.ViewStore.SetHoveredPlanet | store.ts:17 | overwrites only the hovered id |
| Store.ViewStore.SetSimulationSpeed | store.ts:18 | overwrites only the simulation speed |
| Store.ViewStore.SetGesture | store.ts:19 | overwrites only the gesture and its confidence |
| Store.ViewStore.ToggleGestureControl | store.ts:20 | flips the flag it reads from the current state |
| CameraController.FirstMatch | components/CameraController.tsx:35-43 | the index of the first sphere mesh, in traversal order, whose radius is within 0.01 of the planet's; no index exactly when no sphere matches |
| CameraController.FirstMatchAppend | components/CameraController.tsx:35-43 | searching a concatenated scene searches the first part, then the second |
| CameraController.FindPlanetMesh | components/CameraController.tsx:32-43 | the traversal loop sets `found` exactly when a sphere matches, and reports the world position of the first match; otherwise the target stays the zero vector |
| CameraController.ShoulderOffset | components/CameraController.tsx:51 | the offset (10, 5, 10) scaled by 0.8 times the planet's radius; `LockedStepTracksPlanet` proves the camera closes 5% of its distance to the target plus this offset |
| CameraController.RequestsReset | components/CameraController.tsx:20-23 | VICTORY together with a truthy captured selection; `CameraRig.Frame` proves the store is reset exactly when it holds, and left untouched otherwise |
| CameraController.CameraStep | components/CameraController.tsx:26-65 | the pose after one frame, which branches on the captured selection. Four lemmas characterise it. `UnknownPlanetKeepsPose`: an unregistered id keeps the pose. `LookupMissKeepsPose`: no matching sphere keeps the pose. `LockedStepTracksPlanet`: 0.9 and 0.95 contractions toward the planet and its shoulder pose. `FreeStepRelaxes`: the look-at point goes to 0.95·lookAt, and the camera moves toward (0,40,60) only while POINTING. `CameraRig.Frame` is proved equal to it |
| CameraController.UnknownPlanetKeepsPose | components/CameraController.tsx:27-28 | if the selected id is not in the registry, the frame leaves both the camera and the look-at point unchanged |
| CameraController.LookupMissKeepsPose | components/CameraController.tsx:45-54 | if no sphere matches the planet's radius, the pose is unchanged |
| CameraController.LockedStepTracksPlanet | components/CameraController.tsx:45-54 | with a match at p: lookAt' − p = 0.9·(lookAt − p); pos' − goal = 0.95·(pos − goal), where goal = p + (10,5,10)·0.8·radius; the look-at point does not overshoot on any axis; all of this holds whatever the gesture, VICTORY included |
| CameraController.FreeStepRelaxes | components/CameraController.tsx:56-65 | with nothing selected, lookAt' = 0.95·lookAt; when POINTING the position closes 2% of its distance to (0,40,60); otherwise the position is unchanged |
| CameraController.CameraRig.constructor | components/CameraController.tsx:16 | the look-at point starts at the origin |
| CameraController.CameraRig.Frame | components/CameraController.tsx:18-66 | one frame: the store is reset to no selection exactly when the gesture is VICTORY and a planet is selected, and is otherwise untouched; the new pose is `CameraStep` of the old pose, and does not depend on the frame time or the clock |
| SolarSystem.RegistryEffectiveEccentricity | components/SolarSystem.tsx:28 | for every registry entry, the effective eccentricity equals the table's and lies in [0, 1); the mercury override agrees with the table's 0 |
| SolarSystem.EffectiveEccentricity | components/SolarSystem.tsx:28 | 0 for mercury, the table's orbit eccentricity otherwise; `RegistryEffectiveEccentricity` proves it agrees with the table on every entry and lies in [0, 1) |
| SolarSystem.IsSemiMinorAxis | components/SolarSystem.tsx:29 | b ≥ 0 and b² = a²(1 − e²), the defining property of `a·√(1−e²)`; `SemiMinorAxisUnique` proves at most one b satisfies it |
| SolarSystem.ShapeOf | components/SolarSystem.tsx:27-30 | a = distance, e = effective eccentricity, b the semi-minor axis, c = a·e; `ShapeBounds` proves 0 ≤ c < a, 0 < b ≤ a, and b = a, c = 0 when e = 0 |
| SolarSystem.SemiMinorAxisUnique | components/SolarSystem.tsx:29 | at most one non-negative b satisfies b² = a²(1 − e²), so that characterisation pins down `a·√(1−e²)` |
| SolarSystem.ShapeBounds | components/SolarSystem.tsx:27-30 | for a proper orbit: c = a·e with 0 ≤ c < a; 0 < b ≤ a; and e = 0 gives b = a and c = 0 |
| SolarSystem.CircularPosition | components/SolarSystem.tsx:42-43 | mercury's placement on the circle of radius `distance` |
| SolarSystem.EllipticPosition | components/SolarSystem.tsx:48-49 | the placement on the ellipse with the Sun at a focus; `FocalDistance` proves its distance from the Sun is a(1 − e·cos θ), between a(1 − e) and a(1 + e) |
| SolarSystem.OrbitPosition | components/SolarSystem.tsx:39-54 | the circle for mercury, the ellipse otherwise; `CircularIsDegenerateEllipse` proves the two coincide when e = 0, and `PlanetBody.Frame` proves the mesh is placed here |
| SolarSystem.CircularIsDegenerateEllipse | components/SolarSystem.tsx:40-49 | with e = 0, the elliptical formula places the planet where the circular branch does, for any cosine and sine |
| SolarSystem.FocalDistance | components/SolarSystem.tsx:45-49 | on the elliptical branch the distance from the Sun at the origin is a(1 − e·cos θ), so it lies between a(1 − e) and a(1 + e) |
| SolarSystem.AngleAdvanceMonotone | components/SolarSystem.tsx:36 | the angle does not decrease when speed, simulation speed and frame time are all non-negative, and stays fixed when the simulation speed is 0 |
| SolarSystem.MercuryAdvance | components/SolarSystem.tsx:36 | at unit simulation speed and unit frame time, mercury advances by its speed, 0.04 |
| SolarSystem.AdvanceAngle | components/SolarSystem.tsx:36 | the angle plus speed·simulationSpeed·delta; `AngleAdvanceMonotone` proves it never decreases for non-negative factors and stands still at simulation speed 0 |
| SolarSystem.Spin | components/SolarSystem.tsx:57 | the rotation plus 0.01·simulationSpeed, with no frame-time factor; `PlanetBody.Frame` proves the mesh's rotation follows it |
| SolarSystem.ClickSelection | components/SolarSystem.tsx:104 | a click deselects (null) exactly when the planet is the active one, and otherwise selects that planet's id |
| SolarSystem.PlanetBody.constructor | components/SolarSystem.tsx:21-30 | the planet starts at the given angle, with orbit parameters a, e, b, c derived from its entry |
| SolarSystem.PlanetBody.Mount | components/SolarSystem.tsx:9 | attaching the mesh changes neither the angle, the position nor the spin |
| SolarSystem.PlanetBody.Frame | components/SolarSystem.tsx:32-58 | with no mesh, the frame is a no-op; otherwise the angle advances by speed·simulationSpeed·delta, the mesh is placed on the orbit at the new angle, and the spin grows by 0.01·simulationSpeed, independent of delta |
| SolarSystem.OnPlanetClick | components/SolarSystem.tsx:102-105 | the store's selection becomes `ClickSelection` of the active id, and the label follows |
| SolarSystem.OnPlanetPointerOver | components/SolarSystem.tsx:106-109 | the hovered id becomes the planet's id; nothing else changes |
| SolarSystem.OnPlanetPointerOut | components/SolarSystem.tsx:110-112 | the hovered id becomes null, whichever planet was hovered |
| SolarSystem.OnSunClick | components/SolarSystem.tsx:174 | clicking the Sun always clears the selection |
| Scene.MatchedPositionAppend | components/CameraController.tsx:35-43 | the position found in a concatenated scene is the first part's match if there is one, else the second part's |
| Scene.SunObjects | components/SolarSystem.tsx:173-207 | the Sun's group and its three spheres, all built with radius 7 at the origin; `SunNeverMatchesPlanet` proves none of them matches a planet |
| Scene.PlanetObjects | components/SolarSystem.tsx:63-147 | one planet's group in traversal order: one orbit ring for mercury and two for the others, then the sphere, then saturn's ring; `PlanetObjectsLookup` proves only the sphere can match |
| Scene.AllPlanetObjects | components/SolarSystem.tsx:215-217 | the planet groups in registry order; `AllPlanetObjectsLookup` proves planet k's radius finds planet k |
| Scene.SceneGraph | components/Scene.tsx:54-62 | the whole scene in traversal order: root, two lights, star field, the solar-system group, the Sun, the planets; `SceneLookupFindsPlanet` proves the lookup finds each planet's own position |
| Scene.PlanetObjectsLookup | components/SolarSystem.tsx:63-147 | within one planet's group, only the planet's sphere can match; it matches exactly when its radius is within 0.01; orbit rings and saturn's ring never match |
| Scene.AllPlanetObjectsLookup | components/SolarSystem.tsx:215-217 | when radii are separated, looking up planet k's radius among all planet groups yields planet k's position |
| Scene.SunNeverMatchesPlanet | components/SolarSystem.tsx:177 | no planet radius is within 0.01 of the Sun's sphere radius 7 |
| Scene.SceneLookupFindsPlanet | components/CameraController.tsx:38 | in the assembled scene, the radius lookup for any registered planet returns that planet's own position; neither the Sun's spheres nor another planet shadow it |
| Scene.CameraTracksSelectedPlanet | components/CameraController.tsx:45-54 | in the assembled scene, selecting planet k makes the frame ease the look-at point toward planet k and the camera toward planet k's shoulder pose |
| Scene.Apply | components/SolarSystem.tsx:102-112 | the store write caused by one event (a click, a hover, the slider, a gesture, the toggle, or a camera frame's VICTORY check); `ApplyPreservesInvariant` proves it keeps the selection and the hover registered and the label consistent |
| Scene.Run | store.ts:13-20 | a sequence of events applied in order; `RunPreservesInvariant` and `ReachableStatesWellFormed` prove every state it reaches from the initial one is well formed |
| Scene.ApplyPreservesInvariant | components/SolarSystem.tsx:104 | every setter call keeps three things true: the selection is null or a registered id, so is the hover, and the mode label is consistent |
| Scene.RunPreservesInvariant | store.ts:13-20 | the invariant survives any sequence of setter calls |
| Scene.ReachableStatesWellFormed | store.ts:7 | in every reachable state, the label is never FREE, and it is LOCKED exactly when a planet is selected; the selection and the hover are null or registered |
| Scene.EarthThenVictory | components/CameraController.tsx:20-23 | selecting earth locks the camera; a VICTORY gesture followed by a camera frame then clears the selection and returns the label to ORBITAL |

## Left out

- The start screen, the HUD panel and `App.tsx` are not part of this model. Nor is the canvas, bloom and lighting configuration in `components/Scene.tsx`; only the scene's traversal order is modelled.
- `components/GestureController.tsx` is not part of this model. It covers webcam access, frame capture and the two-second timer that resets the gesture to IDLE. Its only effect on the state is a `setGesture` call, which appears as the `GestureDetected` event.
- Floating point is idealised as exact real arithmetic.
- Square root is not modelled: the constructor of `PlanetBody` receives `b` together with its characterisation b ≥ 0 and b² = a²(1 − e²).
- Cosine and sine are not modelled. They are parameters of `PlanetBody.Frame` and of the position functions.
- The random initial orbital angle is a constructor parameter.
- React's re-render and zustand's subscriber notification are not modelled. Nor is the way `OrbitControls` and user input combine with the controller's writes to the camera.
- `camera.lookAt` orientation maths is not modelled. The camera's aim is represented by the smoothed look-at point it is given.
- Scene traversal and `getWorldPosition` are represented by a flat sequence of objects in traversal order, each carrying its world position.
- Inside a planet group, the model leaves out the hover label (an `Html` node) and the unusual `primitive` child of the first orbit ring. Both come after the planet's sphere or are not sphere meshes, so neither can affect the radius lookup.
- The model also leaves out the box that the error boundary renders on a failure.
- Ring geometries carry a placeholder radius of 0 in the scene model, because only sphere radii are read.
- These fields have no computational role and are not modelled: `orbit.perihelion`, `orbit.tilt`, colours, textures, descriptions, and the display-only `details` strings. Those strings include mercury's "0.206".
- Ring rendering, opacities and emissive intensities are not modelled.
- SolarSystem.OnPlanetClick: reads the store's current selection to decide between selecting and deselecting. The handler itself uses the value captured at the planet's last render. The two agree whenever the planet has re-rendered since the last selection change.
- Scene.Apply: the `CameraFrame` event branches on the current selection and gesture. The camera actually reads the values captured at its last render. The exact within-frame behaviour is stated separately by `CameraController.CameraRig.Frame`.
