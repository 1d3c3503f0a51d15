/** The solar-system bodies, the table `calcSolarSystem` builds from them (keyed by each
    body's short name, in the fixed body order), and the pointer search over that table
    (`nearestSolarSystem`). A body's position, phase angle and distance term come from the
    orbit series and are inputs here; its magnitude rule is modelled. */
module SolarSystem {
  import opened Js
  import opened Magnitude
  import opened Catalogue

  /** Which `calculate` a body runs: the Sun and the Moon override it with a fixed
      magnitude (-22 and -10), and the Sun's override never assigns `phase`; the planets
      use the shared one with their `calculateMagnitude` rule. */
  datatype Calculation = SunCalculate | MoonCalculate | PlanetCalculate(rule: MagnitudeRule)

  datatype Body = Body(bf: string, calculation: Calculation)

  /** What the geometry of `calculate` produces for a body at the given time. */
  datatype Observation = Observation(ra: real, dec: real, distance: real, phase: real, distanceMagFactor: real)

  /** The values `calculate` returns; a `phase` left unassigned is `None` (`undefined`). */
  datatype BodyValues = BodyValues(ra: real, dec: real, distance: real, phase: Option<real>, mag: real)

  /** An entry of the table: the body and its computed values. */
  datatype SolarItem = SolarItem(body: Body, values: BodyValues)

  const Sun := Body("Sol", SunCalculate)
  const Mercury := Body("Mercury", PlanetCalculate(MercuryPhase))
  const Venus := Body("Venus", PlanetCalculate(VenusPhase))
  const Moon := Body("Luna", MoonCalculate)
  const Mars := Body("Mars", PlanetCalculate(BaseMagnitude(-0.367)))
  const Jupiter := Body("Jupiter", PlanetCalculate(BaseMagnitude(-9.428)))
  const Saturn := Body("Saturn", PlanetCalculate(BaseMagnitude(-8.9)))
  const Uranus := Body("Uranus", PlanetCalculate(BaseMagnitude(-7.1)))
  const Neptune := Body("Neptune", PlanetCalculate(BaseMagnitude(-7.0)))

  /** The `SolarSystem` array, in its order. */
  const Bodies: seq<Body> := [Sun, Mercury, Venus, Moon, Mars, Jupiter, Saturn, Uranus, Neptune]

  /** `p.calculate(...)` for a body, given its observed geometry: the position is the
      observed one, the phase is set by every body but the Sun, and the magnitude is the
      fixed one of an override or the planet's rule at the observed phase and distance. */
  function Calculate(body: Body, obs: Observation): (v: BodyValues)
    ensures v.ra == obs.ra && v.dec == obs.dec && v.distance == obs.distance
    ensures v.phase == (if body.calculation.SunCalculate? then None else Some(obs.phase))
    ensures body.calculation.SunCalculate? ==> v.mag == -22.0
    ensures body.calculation.MoonCalculate? ==> v.mag == -10.0
    ensures body.calculation.PlanetCalculate? ==>
      v.mag == ApparentMagnitude(body.calculation.rule, obs.phase, obs.distanceMagFactor)
  {
    match body.calculation
    case SunCalculate => BodyValues(obs.ra, obs.dec, obs.distance, None, -22.0)
    case MoonCalculate => BodyValues(obs.ra, obs.dec, obs.distance, Some(obs.phase), -10.0)
    case PlanetCalculate(rule) =>
      BodyValues(obs.ra, obs.dec, obs.distance, Some(obs.phase), ApparentMagnitude(rule, obs.phase, obs.distanceMagFactor))
  }

  function Names(bodies: seq<Body>): (names: seq<string>)
    ensures |names| == |bodies|
    ensures forall i :: 0 <= i < |bodies| ==> names[i] == bodies[i].bf
  {
    if bodies == [] then [] else [bodies[0].bf] + Names(bodies[1..])
  }

  /** The nine short names are distinct, so no body's entry overwrites another's. */
  lemma BodyNamesDistinct()
    ensures Names(Bodies) == ["Sol", "Mercury", "Venus", "Luna", "Mars", "Jupiter", "Saturn", "Uranus", "Neptune"]
    ensures forall i, j :: 0 <= i < j < |Bodies| ==> Bodies[i].bf != Bodies[j].bf
  {
    var n := Names(Bodies);
    var want := ["Sol", "Mercury", "Venus", "Luna", "Mars", "Jupiter", "Saturn", "Uranus", "Neptune"];
    assert |n| == |want| == 9;
    assert forall i :: 0 <= i < 9 ==> n[i] == Bodies[i].bf == want[i];
    assert n == want;
  }

  /** In the table only the Sun's entry has no phase angle; every other body's phase is
      the observed one. */
  lemma SunAloneLacksPhase(observe: Body -> Observation)
    ensures forall i :: 0 <= i < |Bodies| ==>
      (Calculate(Bodies[i], observe(Bodies[i])).phase.None? <==> Bodies[i].bf == "Sol")
    ensures forall i :: 1 <= i < |Bodies| ==>
      Calculate(Bodies[i], observe(Bodies[i])).phase == Some(observe(Bodies[i]).phase)
  {
  }

  /** The `forEach` of `calcSolarSystem` over a list of bodies with distinct names: one
      entry per body under its short name, in list order. */
  method TabulateBodies(bodies: seq<Body>, observe: Body -> Observation) returns (result: Dictionary<SolarItem>)
    requires forall i, j :: 0 <= i < j < |bodies| ==> bodies[i].bf != bodies[j].bf
    ensures result.Valid()
    ensures result.keys == Names(bodies)
    ensures forall i :: 0 <= i < |bodies| ==>
      result.entries[bodies[i].bf] == SolarItem(bodies[i], Calculate(bodies[i], observe(bodies[i])))
  {
    result := EmptyDictionary();
    for i := 0 to |bodies|
      invariant result.Valid()
      invariant |result.keys| == i
      invariant forall j :: 0 <= j < i ==> result.keys[j] == bodies[j].bf
      invariant forall j :: 0 <= j < i ==>
        result.entries[bodies[j].bf] == SolarItem(bodies[j], Calculate(bodies[j], observe(bodies[j])))
    {
      var p := bodies[i];
      ghost var before := result;
      assert p.bf !in before.entries by {
        forall j | 0 <= j < i ensures before.keys[j] != p.bf {
          assert bodies[j].bf != bodies[i].bf;
        }
      }
      var item := SolarItem(p, Calculate(p, observe(p)));
      result := result.Put(p.bf, item);
      assert result.keys == before.keys + [p.bf];
      assert result.entries == before.entries[p.bf := item];
    }
    assert result.keys == Names(bodies);
  }

  /** `calcSolarSystem`: nine entries, keyed Sol, Mercury, Venus, Luna, Mars, Jupiter,
      Saturn, Uranus, Neptune in that order, each holding its body and calculated values. */
  method CalcSolarSystem(observe: Body -> Observation) returns (result: Dictionary<SolarItem>)
    ensures result.Valid()
    ensures result.keys == ["Sol", "Mercury", "Venus", "Luna", "Mars", "Jupiter", "Saturn", "Uranus", "Neptune"]
    ensures forall i :: 0 <= i < |Bodies| ==>
      result.entries[Bodies[i].bf] == SolarItem(Bodies[i], Calculate(Bodies[i], observe(Bodies[i])))
  {
    BodyNamesDistinct();
    result := TabulateBodies(Bodies, observe);
  }

  lemma {:induction false} NamesAppend(bodies: seq<Body>, b: Body)
    ensures Names(bodies + [b]) == Names(bodies) + [b.bf]
  {
    if bodies != [] {
      assert (bodies + [b])[1..] == bodies[1..] + [b];
      NamesAppend(bodies[1..], b);
    }
  }

  /** What `nearestSolarSystem` returns. */
  datatype SolarHit = SolarHit(key: string, name: string, ra: real, dec: real, distance: real, mag: real)

  function ItemDistance(item: SolarItem, pointRa: real, pointDec: real): real
  {
    PlanarDistance(item.values.ra, item.values.dec, pointRa, pointDec)
  }

  /** An entry the search may choose: bright enough and strictly inside the initial
      distance. */
  predicate Candidate(item: SolarItem, pointRa: real, pointDec: real, maxMag: real)
  {
    item.values.mag <= maxMag && ItemDistance(item, pointRa, pointDec) < InitialDistance
  }

  /** Entry `i` in key order is a candidate, no bright-enough entry is closer, and every
      bright-enough entry before it is strictly farther. */
  predicate FirstNearest(results: Dictionary<SolarItem>, i: int, pointRa: real, pointDec: real, maxMag: real)
    requires results.Valid()
  {
    0 <= i < |results.keys|
    && var d := ItemDistance(results.entries[results.keys[i]], pointRa, pointDec);
    && Candidate(results.entries[results.keys[i]], pointRa, pointDec, maxMag)
    && (forall j :: 0 <= j < |results.keys| && results.entries[results.keys[j]].values.mag <= maxMag ==>
          ItemDistance(results.entries[results.keys[j]], pointRa, pointDec) >= d)
    && (forall j :: 0 <= j < i && results.entries[results.keys[j]].values.mag <= maxMag ==>
          ItemDistance(results.entries[results.keys[j]], pointRa, pointDec) > d)
  }

  /** The result built from entry `i`. */
  function HitAt(results: Dictionary<SolarItem>, i: int, pointRa: real, pointDec: real): SolarHit
    requires results.Valid() && 0 <= i < |results.keys|
  {
    var item := results.entries[results.keys[i]];
    SolarHit(results.keys[i], item.body.bf, item.values.ra, item.values.dec,
             ItemDistance(item, pointRa, pointDec), item.values.mag)
  }

  /** `nearestSolarSystem`: among the entries no fainter than `maxMag`, taken in key
      order, the first that is strictly closest and closer than the initial distance;
      fails (it dereferences null) when there is none. */
  method NearestSolarSystem(results: Dictionary<SolarItem>, pointRa: real, pointDec: real, maxMag: real)
    returns (r: Result<SolarHit, SearchError>)
    requires results.Valid()
    ensures r.Ok? <==> exists j :: 0 <= j < |results.keys| && Candidate(results.entries[results.keys[j]], pointRa, pointDec, maxMag)
    ensures r.Ok? ==> exists i :: FirstNearest(results, i, pointRa, pointDec, maxMag) && r.value == HitAt(results, i, pointRa, pointDec)
  {
    var keys := results.keys;
    var closestDistance := InitialDistance;
    var wanted: Option<nat> := None;
    for i := 0 to |keys|
      invariant wanted.None? ==> closestDistance == InitialDistance
      invariant wanted.None? ==> forall j :: 0 <= j < i ==> !Candidate(results.entries[keys[j]], pointRa, pointDec, maxMag)
      invariant wanted.Some? ==> wanted.value < i && Candidate(results.entries[keys[wanted.value]], pointRa, pointDec, maxMag)
      invariant wanted.Some? ==> closestDistance == ItemDistance(results.entries[keys[wanted.value]], pointRa, pointDec)
      invariant forall j :: 0 <= j < i && results.entries[keys[j]].values.mag <= maxMag ==>
        ItemDistance(results.entries[keys[j]], pointRa, pointDec) >= closestDistance
      invariant wanted.Some? ==> forall j :: 0 <= j < wanted.value && results.entries[keys[j]].values.mag <= maxMag ==>
        ItemDistance(results.entries[keys[j]], pointRa, pointDec) > closestDistance
    {
      var theSolar := results.entries[keys[i]];
      if theSolar.values.mag <= maxMag {
        var thisDiff := PlanarDistance(theSolar.values.ra, theSolar.values.dec, pointRa, pointDec);
        if thisDiff < closestDistance {
          closestDistance := thisDiff;
          wanted := Some(i);
        }
      }
    }
    match wanted
    case None =>
      r := Err(NothingWithinLimit);
    case Some(i) =>
      var item := results.entries[keys[i]];
      r := Ok(SolarHit(keys[i], item.body.bf, item.values.ra, item.values.dec, closestDistance, item.values.mag));
      assert FirstNearest(results, i, pointRa, pointDec, maxMag);
  }
}
