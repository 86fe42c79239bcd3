/**
 * The planet registry: a fixed table of eight planets in order of
 * increasing distance from the Sun. Only the fields with a computational
 * role are kept (textures, colours and the display-only detail strings
 * are not).
 */
module Constants {
  import opened Types

  datatype PlanetSpec = PlanetSpec(
    id: string,
    name: string,
    radius: real,        // sphere radius in scene units
    distance: real,      // semi-major axis `a`
    speed: real,         // angular speed coefficient
    eccentricity: real)  // `orbit.eccentricity`

  const PLANETS: seq<PlanetSpec> := [
    PlanetSpec("mercury", "Mercury", 0.8, 10.0, 0.04, 0.0),
    PlanetSpec("venus", "Venus", 1.5, 15.0, 0.015, 0.007),
    PlanetSpec("earth", "Earth", 1.6, 22.0, 0.01, 0.017),
    PlanetSpec("mars", "Mars", 1.1, 30.0, 0.008, 0.094),
    PlanetSpec("jupiter", "Jupiter", 4.5, 45.0, 0.004, 0.049),
    PlanetSpec("saturn", "Saturn", 3.8, 65.0, 0.003, 0.057),
    PlanetSpec("uranus", "Uranus", 2.5, 85.0, 0.002, 0.046),
    PlanetSpec("neptune", "Neptune", 2.4, 100.0, 0.001, 0.011)
  ]

  function Abs(x: real): real
  {
    if x < 0.0 then -x else x
  }

  /** The tolerance the camera uses to recognise a planet's sphere by its radius. */
  const RADIUS_TOLERANCE: real := 0.01

  predicate DistinctIds(ps: seq<PlanetSpec>)
  {
    forall i, j :: 0 <= i < j < |ps| ==> ps[i].id != ps[j].id
  }

  /** Every entry is a proper ellipse with positive size and speed. */
  predicate EntriesValid(ps: seq<PlanetSpec>)
  {
    forall i :: 0 <= i < |ps| ==>
      && ps[i].id != ""
      && ps[i].radius > 0.0
      && ps[i].distance > 0.0
      && ps[i].speed > 0.0
      && 0.0 <= ps[i].eccentricity < 1.0
  }

  /** Farther planets have larger orbits and slower angular speeds. */
  predicate OrderedOutward(ps: seq<PlanetSpec>)
  {
    forall i, j :: 0 <= i < j < |ps| ==>
      ps[i].distance < ps[j].distance && ps[i].speed > ps[j].speed
  }

  /** No two planet spheres are within the radius tolerance of each other. */
  predicate RadiiSeparated(ps: seq<PlanetSpec>)
  {
    forall i, j :: 0 <= i < j < |ps| ==> Abs(ps[i].radius - ps[j].radius) > RADIUS_TOLERANCE
  }

  predicate WellFormed(ps: seq<PlanetSpec>)
  {
    && |ps| == 8
    && DistinctIds(ps)
    && EntriesValid(ps)
    && OrderedOutward(ps)
    && RadiiSeparated(ps)
    && ps[0].id == "mercury" && ps[0].eccentricity == 0.0
  }

  /** Distances increase and speeds decrease between neighbouring entries. */
  predicate OrderedNeighbours(ps: seq<PlanetSpec>)
  {
    forall i :: 0 <= i < |ps| - 1 ==>
      ps[i].distance < ps[i + 1].distance && ps[i].speed > ps[i + 1].speed
  }

  /** Ordering between neighbours extends to every pair. */
  lemma {:induction false} NeighboursOrderAll(ps: seq<PlanetSpec>)
    requires OrderedNeighbours(ps)
    ensures OrderedOutward(ps)
  {
    if |ps| > 1 {
      var tail := ps[1..];
      assert OrderedNeighbours(tail) by {
        forall i | 0 <= i < |tail| - 1
          ensures tail[i].distance < tail[i + 1].distance && tail[i].speed > tail[i + 1].speed
        {
          assert tail[i] == ps[i + 1] && tail[i + 1] == ps[i + 2];
        }
      }
      NeighboursOrderAll(tail);
      forall i, j | 0 <= i < j < |ps|
        ensures ps[i].distance < ps[j].distance && ps[i].speed > ps[j].speed
      {
        if i > 0 {
          assert ps[i] == tail[i - 1] && ps[j] == tail[j - 1];
        } else if j > 1 {
          assert ps[1] == tail[0] && ps[j] == tail[j - 1];
        }
      }
    }
  }

  lemma RegistryIndex(i: int)
    requires 0 <= i < |PLANETS|
    ensures i == 0 || i == 1 || i == 2 || i == 3 || i == 4 || i == 5 || i == 6 || i == 7
  {
  }

  lemma RegistryEntriesValid()
    ensures EntriesValid(PLANETS)
  {
    forall i | 0 <= i < |PLANETS|
      ensures PLANETS[i].id != "" && PLANETS[i].radius > 0.0 && PLANETS[i].distance > 0.0
      ensures PLANETS[i].speed > 0.0 && 0.0 <= PLANETS[i].eccentricity < 1.0
    {
      RegistryIndex(i);
    }
  }

  lemma RegistryDistinctIds()
    ensures DistinctIds(PLANETS)
  {
    forall i, j | 0 <= i < j < |PLANETS|
      ensures PLANETS[i].id != PLANETS[j].id
    {
      RegistryIndex(i);
      RegistryIndex(j);
    }
  }

  lemma RegistryRadiiSeparated()
    ensures RadiiSeparated(PLANETS)
  {
    forall i, j | 0 <= i < j < |PLANETS|
      ensures Abs(PLANETS[i].radius - PLANETS[j].radius) > RADIUS_TOLERANCE
    {
      RegistryIndex(i);
      RegistryIndex(j);
    }
  }

  lemma RegistryOrderedOutward()
    ensures OrderedOutward(PLANETS)
  {
    forall i | 0 <= i < |PLANETS| - 1
      ensures PLANETS[i].distance < PLANETS[i + 1].distance
      ensures PLANETS[i].speed > PLANETS[i + 1].speed
    {
      RegistryIndex(i);
    }
    NeighboursOrderAll(PLANETS);
  }

  /** The registry has eight entries with distinct non-empty ids, proper
      orbits ordered outward, radii the camera can tell apart, and a
      circular first entry, mercury. */
  lemma RegistryWellFormed()
    ensures WellFormed(PLANETS)
  {
    RegistryEntriesValid();
    RegistryDistinctIds();
    RegistryRadiiSeparated();
    RegistryOrderedOutward();
  }

  /** `PLANETS.find(p => p.id === id)`: the first entry with that id, if any. */
  function FindIn(ps: seq<PlanetSpec>, id: string): (r: Option<PlanetSpec>)
    ensures r.Some? ==> r.value in ps && r.value.id == id
    ensures r.None? <==> forall p :: p in ps ==> p.id != id
  {
    if ps == [] then None
    else if ps[0].id == id then Some(ps[0])
    else FindIn(ps[1..], id)
  }

  function Find(id: string): Option<PlanetSpec>
  {
    FindIn(PLANETS, id)
  }

  predicate IsRegistered(id: string)
  {
    exists k :: 0 <= k < |PLANETS| && PLANETS[k].id == id
  }

  /** With distinct ids, looking an entry's id up yields that very entry. */
  lemma {:induction false} FindInDistinct(ps: seq<PlanetSpec>, k: int)
    requires DistinctIds(ps)
    requires 0 <= k < |ps|
    ensures FindIn(ps, ps[k].id) == Some(ps[k])
  {
    if k > 0 {
      var tail := ps[1..];
      assert DistinctIds(tail) by {
        forall i, j | 0 <= i < j < |tail| ensures tail[i].id != tail[j].id {
          assert tail[i] == ps[i + 1] && tail[j] == ps[j + 1];
        }
      }
      assert ps[0].id != ps[k].id;
      assert tail[k - 1] == ps[k];
      FindInDistinct(tail, k - 1);
    }
  }

  /** The lookup succeeds exactly on registered ids, and returns the entry
      registered under the id. */
  lemma FindRegistered(id: string)
    ensures Find(id).Some? <==> IsRegistered(id)
    ensures forall k :: 0 <= k < |PLANETS| && PLANETS[k].id == id ==> Find(id) == Some(PLANETS[k])
  {
    RegistryDistinctIds();
    forall k | 0 <= k < |PLANETS| && PLANETS[k].id == id
      ensures Find(id) == Some(PLANETS[k])
    {
      FindInDistinct(PLANETS, k);
    }
    if Find(id).Some? {
      var p := Find(id).value;
      var k :| 0 <= k < |PLANETS| && PLANETS[k] == p;
      assert PLANETS[k].id == id;
    }
  }
}
