/**
 * The orbital bookkeeping of each planet and the selection handlers of the
 * planets and the Sun.
 *
 * A planet's orbit is an ellipse with semi-major axis `a` (the registry
 * distance), eccentricity `e` (forced to 0 for mercury), semi-minor axis
 * `b = a·√(1−e²)` and focal offset `c = a·e`, placed so that the Sun sits
 * at a focus. There is no square root on reals here: `b` is characterised
 * by `b ≥ 0` and `b² = a²(1−e²)` and supplied by whoever builds the planet.
 * Likewise the cosine and sine of the orbital angle are inputs.
 */
module SolarSystem {
  import opened Types
  import opened Vector3
  import opened Constants
  import Store

  /** The radius of the Sun's core sphere and of its two glow spheres. */
  const SUN_RADIUS: real := 7.0

  /** Per-frame axial spin at unit simulation speed. */
  const SPIN_RATE: real := 0.01

  function EffectiveEccentricity(p: PlanetSpec): real
  {
    if p.id == "mercury" then 0.0 else p.eccentricity
  }

  datatype OrbitShape = OrbitShape(a: real, e: real, b: real, c: real)

  /** `b` is the semi-minor axis of an ellipse with semi-major axis `a` and eccentricity `e`. */
  predicate IsSemiMinorAxis(a: real, e: real, b: real)
  {
    b >= 0.0 && b * b == a * a * (1.0 - e * e)
  }

  /** `s` holds the orbit parameters the planet derives from its registry entry. */
  predicate ShapeOf(p: PlanetSpec, s: OrbitShape)
  {
    && s.a == p.distance
    && s.e == EffectiveEccentricity(p)
    && IsSemiMinorAxis(s.a, s.e, s.b)
    && s.c == s.a * s.e
  }

  /** For a registry entry the mercury override changes nothing, since the
      table already gives mercury eccentricity 0; every effective
      eccentricity lies in [0, 1). */
  lemma RegistryEffectiveEccentricity(k: int)
    requires 0 <= k < |PLANETS|
    ensures EffectiveEccentricity(PLANETS[k]) == PLANETS[k].eccentricity
    ensures 0.0 <= EffectiveEccentricity(PLANETS[k]) < 1.0
  {
    RegistryWellFormed();
    if PLANETS[k].id == "mercury" {
      assert PLANETS[k].id == PLANETS[0].id;
      assert k == 0;
    }
  }

  /** The semi-minor axis is pinned down by its square: at most one
      non-negative value qualifies. */
  lemma SemiMinorAxisUnique(a: real, e: real, b1: real, b2: real)
    requires IsSemiMinorAxis(a, e, b1) && IsSemiMinorAxis(a, e, b2)
    ensures b1 == b2
  {
    if b1 + b2 > 0.0 {
      ZeroFactor(b1 - b2, b1 + b2, b1 * b1 - b2 * b2);
    }
  }

  lemma MulNonNegative(p: real, q: real, r: real)
    requires p >= 0.0 && q >= 0.0 && r == p * q
    ensures r >= 0.0
  {
  }

  lemma MulPositive(p: real, q: real, r: real)
    requires p > 0.0 && q > 0.0 && r == p * q
    ensures r > 0.0
  {
  }

  /** A zero product with one positive factor has a zero other factor. */
  lemma ZeroFactor(p: real, q: real, r: real)
    requires q > 0.0 && r == p * q && r == 0.0
    ensures p == 0.0
  {
    if p > 0.0 {
      MulPositive(p, q, r);
    } else if p < 0.0 {
      MulPositive(-p, q, -r);
    }
  }

  /** Square roots preserve order. */
  lemma SquareMonotone(x: real, y: real)
    requires 0.0 <= x && 0.0 <= y && x * x <= y * y
    ensures x <= y
  {
    if x > y {
      MulPositive(x - y, x + y, x * x - y * y);
    }
  }

  /**
   * For a proper orbit (a > 0, 0 ≤ e < 1): the focal offset is `a·e` and
   * lies in [0, a), the semi-minor axis lies in (0, a], and a circular orbit
   * has `b = a` and `c = 0`.
   */
  lemma ShapeBounds(p: PlanetSpec, s: OrbitShape)
    requires ShapeOf(p, s)
    requires p.distance > 0.0 && 0.0 <= EffectiveEccentricity(p) < 1.0
    ensures s.c == s.a * s.e && 0.0 <= s.c < s.a
    ensures 0.0 < s.b <= s.a
    ensures s.e == 0.0 ==> s.b == s.a && s.c == 0.0
  {
    var a, e, b, c := s.a, s.e, s.b, s.c;
    var ee, aa, bb := e * e, a * a, b * b;
    MulNonNegative(e, 1.0 - e, e - ee);
    MulPositive(a, a, aa);
    MulPositive(aa, 1.0 - ee, bb);
    MulNonNegative(aa, ee, aa - bb);
    SquareMonotone(b, a);
    MulNonNegative(a, e, c);
    MulPositive(a, 1.0 - e, a - c);
    if e == 0.0 {
      SemiMinorAxisUnique(a, e, b, a);
    }
  }

  /** The circular placement used for mercury. */
  function CircularPosition(distance: real, cosTheta: real, sinTheta: real): Vec3
  {
    Vec3(cosTheta * distance, 0.0, sinTheta * distance)
  }

  /** The elliptical placement with the Sun at a focus. */
  function EllipticPosition(s: OrbitShape, cosTheta: real, sinTheta: real): Vec3
  {
    Vec3(s.a * cosTheta - s.c, 0.0, s.b * sinTheta)
  }

  /** Where planet `p` is placed when its orbital angle has the given cosine and sine. */
  function OrbitPosition(p: PlanetSpec, s: OrbitShape, cosTheta: real, sinTheta: real): Vec3
  {
    if p.id == "mercury" then CircularPosition(p.distance, cosTheta, sinTheta)
    else EllipticPosition(s, cosTheta, sinTheta)
  }

  /** With eccentricity 0 the elliptical formula places the planet exactly
      where the circular one does, whatever the cosine and sine. */
  lemma CircularIsDegenerateEllipse(p: PlanetSpec, s: OrbitShape, cosTheta: real, sinTheta: real)
    requires ShapeOf(p, s) && p.distance > 0.0 && s.e == 0.0
    ensures EllipticPosition(s, cosTheta, sinTheta) == CircularPosition(p.distance, cosTheta, sinTheta)
  {
    ShapeBounds(p, s);
  }

  /**
   * On an elliptical orbit the distance from the Sun is `a(1 − e·cos θ)`,
   * so it ranges from `a(1−e)` (perihelion) to `a(1+e)` (aphelion); with
   * `e = 0` it is the constant `a`.
   */
  lemma FocalDistance(s: OrbitShape, cosTheta: real, sinTheta: real)
    requires s.a > 0.0 && 0.0 <= s.e < 1.0 && IsSemiMinorAxis(s.a, s.e, s.b) && s.c == s.a * s.e
    requires cosTheta * cosTheta + sinTheta * sinTheta == 1.0
    ensures
      var q := EllipticPosition(s, cosTheta, sinTheta);
      var r := s.a * (1.0 - s.e * cosTheta);
      && q.x * q.x + q.z * q.z == r * r
      && s.a * (1.0 - s.e) <= r <= s.a * (1.0 + s.e)
  {
    SquaredFocalDistance(s.a, s.e, s.b, cosTheta, sinTheta);
    CosineRange(cosTheta, sinTheta);
    FocalDistanceRange(s.a, s.e, cosTheta);
  }

  lemma SquaredFocalDistance(a: real, e: real, b: real, cosTheta: real, sinTheta: real)
    requires b * b == a * a * (1.0 - e * e)
    requires cosTheta * cosTheta + sinTheta * sinTheta == 1.0
    ensures (a * cosTheta - a * e) * (a * cosTheta - a * e) + (b * sinTheta) * (b * sinTheta)
         == (a * (1.0 - e * cosTheta)) * (a * (1.0 - e * cosTheta))
  {
    var bb, ss := b * b, sinTheta * sinTheta;
    assert (b * sinTheta) * (b * sinTheta) == bb * ss;
    assert bb * ss == (a * a * (1.0 - e * e)) * (1.0 - cosTheta * cosTheta);
  }

  lemma CosineRange(cosTheta: real, sinTheta: real)
    requires cosTheta * cosTheta + sinTheta * sinTheta == 1.0
    ensures -1.0 <= cosTheta <= 1.0
  {
    MulNonNegative(if sinTheta >= 0.0 then sinTheta else -sinTheta,
                   if sinTheta >= 0.0 then sinTheta else -sinTheta, sinTheta * sinTheta);
    if cosTheta >= 0.0 {
      SquareMonotone(cosTheta, 1.0);
    } else {
      SquareMonotone(-cosTheta, 1.0);
    }
  }

  lemma FocalDistanceRange(a: real, e: real, cosTheta: real)
    requires a > 0.0 && 0.0 <= e && -1.0 <= cosTheta <= 1.0
    ensures a * (1.0 - e) <= a * (1.0 - e * cosTheta) <= a * (1.0 + e)
  {
    var ae := a * e;
    MulNonNegative(a, e, ae);
    MulNonNegative(ae, 1.0 - cosTheta, ae - ae * cosTheta);
    MulNonNegative(ae, 1.0 + cosTheta, ae + ae * cosTheta);
  }

  /** The orbital angle after a frame of length `delta`. */
  function AdvanceAngle(angle: real, speed: real, simulationSpeed: real, delta: real): real
  {
    angle + speed * simulationSpeed * delta
  }

  /** The angle never runs backwards for non-negative speed, simulation
      speed and frame time, and stands still at simulation speed 0. */
  lemma AngleAdvanceMonotone(angle: real, speed: real, simulationSpeed: real, delta: real)
    ensures speed >= 0.0 && simulationSpeed >= 0.0 && delta >= 0.0 ==>
      AdvanceAngle(angle, speed, simulationSpeed, delta) >= angle
    ensures simulationSpeed == 0.0 ==> AdvanceAngle(angle, speed, simulationSpeed, delta) == angle
  {
    if speed >= 0.0 && simulationSpeed >= 0.0 && delta >= 0.0 {
      ProductSigns(speed, simulationSpeed);
      ProductSigns(speed * simulationSpeed, delta);
    }
  }

  /** Mercury at unit simulation speed advances 0.04 rad per second of frame time. */
  lemma MercuryAdvance(angle: real)
    ensures AdvanceAngle(angle, PLANETS[0].speed, 1.0, 1.0) == angle + 0.04
  {
  }

  /** The axial rotation after one frame; it does not depend on the frame time. */
  function Spin(rotationY: real, simulationSpeed: real): real
  {
    rotationY + SPIN_RATE * simulationSpeed
  }

  /** The value a planet click hands to `setActivePlanet`: deselect the
      planet if it is the active one, otherwise select it. */
  function ClickSelection(activePlanetId: Option<string>, id: string): (r: Option<string>)
    ensures r == None <==> activePlanetId == Some(id)
    ensures r != None ==> r == Some(id)
  {
    if activePlanetId == Some(id) then None else Some(id)
  }

  /** A planet as animated by the renderer: its registry entry, its orbit
      parameters, and the mutable state its per-frame callback updates. */
  class PlanetBody {
    const data: PlanetSpec
    const shape: OrbitShape
    var angle: real        // accumulated orbital angle
    var mounted: bool      // whether the planet's mesh exists yet
    var position: Vec3     // the mesh's position
    var rotationY: real    // the mesh's rotation about its vertical axis

    /** A planet starting at `initialAngle` (random in the original); `b` is
        the semi-minor axis computed from the entry. */
    constructor (data: PlanetSpec, initialAngle: real, b: real)
      requires IsSemiMinorAxis(data.distance, EffectiveEccentricity(data), b)
      ensures this.data == data && ShapeOf(data, shape) && shape.b == b
      ensures angle == initialAngle && !mounted
      ensures position == Origin && rotationY == 0.0
    {
      this.data := data;
      var a := data.distance;
      var e := EffectiveEccentricity(data);
      var c := a * e;
      shape := OrbitShape(a, e, b, c);
      angle := initialAngle;
      mounted := false;
      position := Origin;
      rotationY := 0.0;
    }

    /** The renderer attaches the planet's mesh. */
    method Mount()
      modifies this
      ensures mounted
      ensures angle == old(angle) && position == old(position) && rotationY == old(rotationY)
    {
      mounted := true;
    }

    /**
     * The per-frame callback. Without a mesh it does nothing; otherwise it
     * advances the angle, places the mesh on the orbit at the new angle and
     * spins it.
     */
    method Frame(simulationSpeed: real, delta: real, cos: real -> real, sin: real -> real)
      modifies this
      ensures mounted == old(mounted)
      ensures !old(mounted) ==>
        angle == old(angle) && position == old(position) && rotationY == old(rotationY)
      ensures old(mounted) ==>
        && angle == AdvanceAngle(old(angle), data.speed, simulationSpeed, delta)
        && position == OrbitPosition(data, shape, cos(angle), sin(angle))
        && rotationY == Spin(old(rotationY), simulationSpeed)
    {
      if !mounted {
        return;
      }
      angle := angle + data.speed * simulationSpeed * delta;
      var x, z;
      if data.id == "mercury" {
        x := cos(angle) * data.distance;
        z := sin(angle) * data.distance;
      } else {
        x := shape.a * cos(angle) - shape.c;
        z := shape.b * sin(angle);
      }
      position := Vec3(x, 0.0, z);
      rotationY := rotationY + SPIN_RATE * simulationSpeed;
    }
  }

  /** Clicking a planet toggles its selection. */
  method OnPlanetClick(store: Store.ViewStore, data: PlanetSpec)
    requires store.Valid()
    modifies store
    ensures store.Valid()
    ensures store.State() ==
      Store.AfterSetActivePlanet(old(store.State()), ClickSelection(old(store.activePlanetId), data.id))
  {
    var isActive := store.activePlanetId == Some(data.id);
    store.SetActivePlanet(if isActive then None else Some(data.id));
  }

  /** Moving the pointer onto a planet marks it hovered. */
  method OnPlanetPointerOver(store: Store.ViewStore, data: PlanetSpec)
    requires store.Valid()
    modifies store
    ensures store.Valid()
    ensures store.State() == Store.AfterSetHoveredPlanet(old(store.State()), Some(data.id))
  {
    store.SetHoveredPlanet(Some(data.id));
  }

  /** Moving the pointer off a planet clears the hover, whichever planet it was. */
  method OnPlanetPointerOut(store: Store.ViewStore)
    requires store.Valid()
    modifies store
    ensures store.Valid()
    ensures store.State() == Store.AfterSetHoveredPlanet(old(store.State()), None)
  {
    store.SetHoveredPlanet(None);
  }

  /** Clicking the Sun always clears the selection. */
  method OnSunClick(store: Store.ViewStore)
    requires store.Valid()
    modifies store
    ensures store.Valid()
    ensures store.State() == Store.AfterSetActivePlanet(old(store.State()), None)
  {
    store.SetActivePlanet(None);
  }
}
