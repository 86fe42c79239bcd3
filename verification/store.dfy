/**
 * The shared view state: a singleton record of seven fields and five
 * setters. `ViewState` is the record's value and the `After…` functions say
 * what each setter produces; `ViewStore` is the mutable singleton whose
 * methods overwrite its fields in place and are proved against them.
 */
module Store {
  import opened Types

  datatype ViewState = ViewState(
    activePlanetId: Option<string>,
    hoveredPlanetId: Option<string>,
    cameraMode: CameraMode,
    simulationSpeed: real,
    currentGesture: GestureType,
    gestureConfidence: real,
    isGestureEnabled: bool)

  /** The names of the record's fields, so that a setter's frame can be stated
      as the set of fields it may change. */
  datatype Field =
    | ActivePlanetId | HoveredPlanetId | CameraModeField | SimulationSpeed
    | CurrentGesture | GestureConfidence | IsGestureEnabled

  /** The fields on which `s` and `t` differ. */
  function Changed(s: ViewState, t: ViewState): (fs: set<Field>)
    ensures fs == {} ==> s == t
  {
    (if s.activePlanetId != t.activePlanetId then {ActivePlanetId} else {})
    + (if s.hoveredPlanetId != t.hoveredPlanetId then {HoveredPlanetId} else {})
    + (if s.cameraMode != t.cameraMode then {CameraModeField} else {})
    + (if s.simulationSpeed != t.simulationSpeed then {SimulationSpeed} else {})
    + (if s.currentGesture != t.currentGesture then {CurrentGesture} else {})
    + (if s.gestureConfidence != t.gestureConfidence then {GestureConfidence} else {})
    + (if s.isGestureEnabled != t.isGestureEnabled then {IsGestureEnabled} else {})
  }

  function InitialState(): ViewState
  {
    ViewState(None, None, Orbital, 1.0, Idle, 0.0, true)
  }

  /** The camera-mode label agrees with the selection: never `Free`, and
      `Locked` exactly when the active id is truthy. */
  predicate Consistent(s: ViewState)
  {
    s.cameraMode != Free && (s.cameraMode == Locked <==> Truthy(s.activePlanetId))
  }

  /** `setActivePlanet(id)`: stores `id` and derives the camera-mode label. */
  function AfterSetActivePlanet(s: ViewState, id: Option<string>): (r: ViewState)
    ensures r.activePlanetId == id
    ensures r.cameraMode == (if Truthy(id) then Locked else Orbital)
    ensures Consistent(r)
    ensures Changed(s, r) <= {ActivePlanetId, CameraModeField}
  {
    s.(activePlanetId := id, cameraMode := if Truthy(id) then Locked else Orbital)
  }

  /** `setHoveredPlanet(id)`. */
  function AfterSetHoveredPlanet(s: ViewState, id: Option<string>): (r: ViewState)
    ensures r.hoveredPlanetId == id
    ensures Changed(s, r) <= {HoveredPlanetId}
  {
    s.(hoveredPlanetId := id)
  }

  /** `setSimulationSpeed(speed)`: stored as given, with no clamping. */
  function AfterSetSimulationSpeed(s: ViewState, speed: real): (r: ViewState)
    ensures r.simulationSpeed == speed
    ensures Changed(s, r) <= {SimulationSpeed}
  {
    s.(simulationSpeed := speed)
  }

  /** `setGesture(gesture, confidence)`. */
  function AfterSetGesture(s: ViewState, gesture: GestureType, confidence: real): (r: ViewState)
    ensures r.currentGesture == gesture && r.gestureConfidence == confidence
    ensures Changed(s, r) <= {CurrentGesture, GestureConfidence}
  {
    s.(currentGesture := gesture, gestureConfidence := confidence)
  }

  /** `toggleGestureControl()`: flips the flag it reads from the current state. */
  function AfterToggleGestureControl(s: ViewState): (r: ViewState)
    ensures r.isGestureEnabled == !s.isGestureEnabled
    ensures Changed(s, r) == {IsGestureEnabled}
  {
    s.(isGestureEnabled := !s.isGestureEnabled)
  }

  /** The initial state is consistent: nothing selected, label `ORBITAL`. */
  lemma InitialStateConsistent()
    ensures Consistent(InitialState())
    ensures !Truthy(InitialState().activePlanetId)
  {
  }

  /** Selecting the same id twice is the same as selecting it once. */
  lemma SetActivePlanetIdempotent(s: ViewState, id: Option<string>)
    ensures AfterSetActivePlanet(AfterSetActivePlanet(s, id), id) == AfterSetActivePlanet(s, id)
  {
  }

  /** Toggling twice restores the original state. */
  lemma ToggleTwiceRestores(s: ViewState)
    ensures AfterToggleGestureControl(AfterToggleGestureControl(s)) == s
  {
  }

  /** Every setter keeps the mode label consistent with the selection. */
  lemma SettersPreserveConsistency(s: ViewState, id: Option<string>, speed: real, g: GestureType, c: real)
    requires Consistent(s)
    ensures Consistent(AfterSetHoveredPlanet(s, id))
    ensures Consistent(AfterSetSimulationSpeed(s, speed))
    ensures Consistent(AfterSetGesture(s, g, c))
    ensures Consistent(AfterToggleGestureControl(s))
  {
  }

  /** The singleton store, whose setters overwrite its fields in place. */
  class ViewStore {
    var activePlanetId: Option<string>
    var hoveredPlanetId: Option<string>
    var cameraMode: CameraMode
    var simulationSpeed: real
    var currentGesture: GestureType
    var gestureConfidence: real
    var isGestureEnabled: bool

    /** The current value of the record. */
    function State(): ViewState
      reads this
    {
      ViewState(activePlanetId, hoveredPlanetId, cameraMode, simulationSpeed,
                currentGesture, gestureConfidence, isGestureEnabled)
    }

    ghost predicate Valid()
      reads this
    {
      Consistent(State())
    }

    constructor ()
      ensures Valid()
      ensures activePlanetId == None && hoveredPlanetId == None
      ensures cameraMode == Orbital && simulationSpeed == 1.0
      ensures currentGesture == Idle && gestureConfidence == 0.0
      ensures isGestureEnabled
      ensures State() == InitialState()
    {
      activePlanetId, hoveredPlanetId := None, None;
      cameraMode := Orbital;
      simulationSpeed := 1.0;
      currentGesture, gestureConfidence := Idle, 0.0;
      isGestureEnabled := true;
    }

    method SetActivePlanet(id: Option<string>)
      requires Valid()
      modifies this
      ensures Valid()
      ensures State() == AfterSetActivePlanet(old(State()), id)
    {
      activePlanetId := id;
      cameraMode := if Truthy(id) then Locked else Orbital;
    }

    method SetHoveredPlanet(id: Option<string>)
      requires Valid()
      modifies this
      ensures Valid()
      ensures State() == AfterSetHoveredPlanet(old(State()), id)
    {
      hoveredPlanetId := id;
    }

    method SetSimulationSpeed(speed: real)
      requires Valid()
      modifies this
      ensures Valid()
      ensures State() == AfterSetSimulationSpeed(old(State()), speed)
    {
      simulationSpeed := speed;
    }

    method SetGesture(gesture: GestureType, confidence: real)
      requires Valid()
      modifies this
      ensures Valid()
      ensures State() == AfterSetGesture(old(State()), gesture, confidence)
    {
      currentGesture, gestureConfidence := gesture, confidence;
    }

    method ToggleGestureControl()
      requires Valid()
      modifies this
      ensures Valid()
      ensures State() == AfterToggleGestureControl(old(State()))
    {
      isGestureEnabled := !isGestureEnabled;
    }
  }
}
