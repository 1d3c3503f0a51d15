/** The orbit solver of `FromKeplerian`, up to the position in the orbital plane: the
    choice of epoch, the dispatch on eccentricity, the semi-major axis and mean anomaly of
    each conic, and the Newton iterations for Kepler's equation (elliptic
    M = E - e sin E, hyperbolic M = e sinh H - H) with their iteration cap. Angles are in
    degrees until the mean anomaly is converted to radians. The rotation into ecliptic
    coordinates is not part of this model. */
module Kepler {
  import opened Js
  import opened MathFns

  /** The orbital-element fields the solver reads; an absent field is None. */
  datatype OrbitalElements = OrbitalElements(
    eccentricity: real,
    epoch: Option<real>,
    timeOfPeriapsis: Option<real>,
    semiMajorAxis: Option<real>,
    perihelionDistance: Option<real>,
    meanAnomaly: Option<real>)

  /** The Gaussian gravitational constant squared, in AU^3 / day^2. */
  const GM: real := 0.00029591220828559093

  /** Convergence tolerances on the change of the anomaly, in radians. */
  const EllipticTolerance: real := 0.00000001
  const HyperbolicTolerance: real := 0.00001

  /** The most Newton updates either loop performs. */
  const MaxUpdates: nat := 100002

  /** The eccentricity that replaces 1, for which the parabolic solver is not used. */
  const NearParabolic: real := 1.0000001

  /** The time of periapsis is the epoch when it is present and non-zero. */
  function ChosenEpoch(el: OrbitalElements): Option<real>
  {
    if Truthy(el.timeOfPeriapsis) then el.timeOfPeriapsis else el.epoch
  }

  datatype Solver = Elliptic | Hyperbolic

  /** The solver for an eccentricity, and the eccentricity it is run with. */
  function Dispatch(e: real): (Solver, real)
  {
    if e < 1.0 then (Elliptic, e)
    else if e > 1.0 then (Hyperbolic, e)
    else (Hyperbolic, NearParabolic)
  }

  /** Eccentricities below 1 go to the elliptic solver unchanged, those above 1 to the
      hyperbolic solver unchanged, and 1 goes to the hyperbolic solver as 1.0000001; so
      each solver gets an eccentricity in its own domain. */
  lemma DispatchSpec(e: real)
    ensures Dispatch(e).0 == Elliptic <==> e < 1.0
    ensures e != 1.0 ==> Dispatch(e).1 == e
    ensures e == 1.0 ==> Dispatch(e) == (Hyperbolic, 1.0000001)
    ensures Dispatch(e).0 == Elliptic ==> Dispatch(e).1 < 1.0
    ensures Dispatch(e).0 == Hyperbolic ==> Dispatch(e).1 > 1.0
  {
  }

  /** The elapsed time from the chosen epoch uses the time of periapsis when it is given. */
  lemma ChosenEpochSpec(el: OrbitalElements)
    ensures Truthy(el.timeOfPeriapsis) ==> ChosenEpoch(el) == el.timeOfPeriapsis
    ensures !Truthy(el.timeOfPeriapsis) ==> ChosenEpoch(el) == el.epoch
  {
  }

  function EllipticSemiMajorAxis(el: OrbitalElements, e: real): real
    requires e < 1.0
  {
    if Truthy(el.semiMajorAxis) then el.semiMajorAxis.value
    else if Truthy(el.perihelionDistance) then el.perihelionDistance.value / (1.0 - e)
    else 0.0
  }

  function HyperbolicSemiMajorAxis(el: OrbitalElements, e: real): real
    requires e > 1.0
  {
    if Truthy(el.semiMajorAxis) && el.semiMajorAxis.value > 0.0 then el.semiMajorAxis.value
    else if Truthy(el.perihelionDistance) then el.perihelionDistance.value / (e - 1.0)
    else 0.0
  }

  /** From a perihelion distance q alone, the axis satisfies q = a (1 - e) for an ellipse
      and q = a (e - 1) for a hyperbola. */
  lemma SemiMajorAxisFromPerihelion(el: OrbitalElements, e: real)
    requires !Truthy(el.semiMajorAxis) && Truthy(el.perihelionDistance)
    ensures e < 1.0 ==> EllipticSemiMajorAxis(el, e) * (1.0 - e) == el.perihelionDistance.value
    ensures e > 1.0 ==> HyperbolicSemiMajorAxis(el, e) * (e - 1.0) == el.perihelionDistance.value
  {
  }

  /** Mean motion in degrees per day, sqrt(GM / a^3) converted from radians. */
  function MeanMotion(m: MathLib, a: real): real
    requires a > 0.0 && PiPositive(m)
  {
    m.sqrt(GM / (a * a * a)) * (180.0 / m.pi)
  }

  /** The elliptic mean anomaly in degrees: from the given mean anomaly when it and the
      epoch are both present, from the time since periapsis when only that is given, and
      0 otherwise. */
  function EllipticMeanAnomaly(el: OrbitalElements, n: real, elapsed: real): real
  {
    if Truthy(el.meanAnomaly) && Truthy(el.epoch) then n * elapsed + el.meanAnomaly.value
    else if Truthy(el.timeOfPeriapsis) then n * elapsed
    else 0.0
  }

  /** The hyperbolic mean anomaly in degrees; without a mean anomaly and epoch it is the
      time since the chosen epoch times the mean motion. */
  function HyperbolicMeanAnomaly(el: OrbitalElements, n: real, elapsed: real): real
  {
    if Truthy(el.meanAnomaly) && Truthy(el.epoch) then n * elapsed + el.meanAnomaly.value
    else n * elapsed
  }

  /** `if (l > 360) l = l % 360`: only angles above 360 are reduced. */
  function ReduceMeanAnomaly(l: real): (r: real)
    ensures l > 360.0 ==> 0.0 <= r < 360.0 && Congruent(r, l, 360.0)
    ensures l <= 360.0 ==> r == l
  {
    if l > 360.0 then
      RemNonNegative(l, 360.0);
      RemCongruent(l, 360.0);
      Rem(l, 360.0)
    else l
  }

  /** Degrees to radians with the given pi. */
  function Radians(m: MathLib, d: real): real
    requires PiPositive(m)
  {
    d * (m.pi / 180.0)
  }

  // ---------------------------------------------------------------------------------
  // Elliptic orbits

  /** The Newton denominator 1 - e cos u is positive for -1 < e < 1. */
  lemma EllipticDenominatorPositive(m: MathLib, e: real, u: real)
    requires SinCosBounded(m) && -1.0 < e < 1.0
    ensures 1.0 - e * m.cos(u) > 0.0
  {
    var c := m.cos(u);
    assert -1.0 <= c <= 1.0;
    if e > 0.0 {
      MulMonotone(e, c, 1.0);
    } else if e < 0.0 {
      MulMonotone(-e, -1.0, c);
    }
  }

  /** One Newton step for u - e sin u = l. */
  function EllipticStep(m: MathLib, l: real, e: real, u: real): real
    requires SinCosBounded(m) && -1.0 < e < 1.0
  {
    EllipticDenominatorPositive(m, e, u);
    u + (l - u + e * m.sin(u)) / (1.0 - e * m.cos(u))
  }

  /** The eccentric anomaly after k Newton steps from u = l. */
  function EllipticIterate(m: MathLib, l: real, e: real, k: nat): real
    requires SinCosBounded(m) && -1.0 < e < 1.0
  {
    if k == 0 then l else EllipticStep(m, l, e, EllipticIterate(m, l, e, k - 1))
  }

  /** A Newton step leaves u unchanged exactly when u already solves u - e sin u = l. */
  lemma EllipticFixedPoint(m: MathLib, l: real, e: real, u: real)
    requires SinCosBounded(m) && -1.0 < e < 1.0
    ensures EllipticStep(m, l, e, u) == u <==> u - e * m.sin(u) == l
  {
    EllipticDenominatorPositive(m, e, u);
    var num, den := l - u + e * m.sin(u), 1.0 - e * m.cos(u);
    if num / den == 0.0 {
      assert num == (num / den) * den;
    }
  }

  /** The elliptic `do`/`while` loop: it stops after the first update that moves u by at
      most 1e-8 radians, or after the 100002nd update. */
  method SolveElliptic(m: MathLib, l: real, e: real) returns (u: real, updates: nat)
    requires SinCosBounded(m) && -1.0 < e < 1.0
    ensures 1 <= updates <= MaxUpdates
    ensures u == EllipticIterate(m, l, e, updates)
    ensures forall k :: 1 <= k < updates ==>
      Abs(EllipticIterate(m, l, e, k - 1) - EllipticIterate(m, l, e, k)) > EllipticTolerance
    ensures updates < MaxUpdates ==>
      Abs(EllipticIterate(m, l, e, updates - 1) - EllipticIterate(m, l, e, updates)) <= EllipticTolerance
  {
    u := l;
    var i := 0;
    updates := 0;
    while true
      invariant updates == i <= MaxUpdates - 1
      invariant u == EllipticIterate(m, l, e, updates)
      invariant forall k :: 1 <= k <= updates ==>
        Abs(EllipticIterate(m, l, e, k - 1) - EllipticIterate(m, l, e, k)) > EllipticTolerance
      decreases MaxUpdates - updates
    {
      var ut := u;
      var deltaU := EllipticStep(m, l, e, u) - u;
      u := u + deltaU;
      updates := updates + 1;
      if i > 100000 {
        break;
      }
      i := i + 1;
      if !(Abs(ut - u) > EllipticTolerance) {
        break;
      }
    }
  }

  /** A negative eccentric anomaly is moved up by one turn, via degrees. */
  function NormalizeEccentricAnomaly(m: MathLib, u: real): (r: real)
    requires PiPositive(m)
  {
    var deg := u * (180.0 / m.pi);
    if deg < 0.0 then (deg + 360.0) * (m.pi / 180.0) else u
  }

  /** The conversion adds exactly 2 pi to negative anomalies and keeps the others. */
  lemma NormalizeEccentricAnomalySpec(m: MathLib, u: real)
    requires PiPositive(m)
    ensures u < 0.0 ==> NormalizeEccentricAnomaly(m, u) == u + 2.0 * m.pi
    ensures u >= 0.0 ==> NormalizeEccentricAnomaly(m, u) == u
  {
    var p := m.pi;
    var deg := u * (180.0 / p);
    assert deg * (p / 180.0) == u;
    if u < 0.0 {
      assert 180.0 / p > 0.0;
      assert deg < 0.0 by { MulMonotone(180.0 / p, u, 0.0); }
    } else {
      assert deg >= 0.0 by { if u > 0.0 { MulMonotone(180.0 / p, 0.0, u); } }
    }
  }

  datatype OrbitalPlane = OrbitalPlane(x: real, y: real, r: real)

  function EllipticPlane(m: MathLib, a: real, e: real, u: real): OrbitalPlane
  {
    OrbitalPlane(a * (m.cos(u) - e), a * m.sqrt(1.0 - e * e) * m.sin(u), a * (1.0 - e * m.cos(u)))
  }

  /** The elliptic position lies on the ellipse with semi-major axis a and eccentricity e
      whose focus is the origin: (x + a e)^2 / a^2 + y^2 / (a^2 (1 - e^2)) = 1. */
  lemma {:induction false} EllipticPlaneOnEllipse(m: MathLib, a: real, e: real, u: real)
    requires Pythagorean(m) && SqrtIsRoot(m) && -1.0 < e < 1.0
    ensures var p := EllipticPlane(m, a, e, u);
      (1.0 - e * e) * (p.x + a * e) * (p.x + a * e) + p.y * p.y == (1.0 - e * e) * a * a
  {
    var k := 1.0 - e * e;
    assert k >= 0.0 by {
      if e > 0.0 { MulMonotone(e, e, 1.0); }
      else if e < 0.0 { MulMonotone(-e, -e, 1.0); }
    }
    var c, s, q := m.cos(u), m.sin(u), m.sqrt(k);
    assert q * q == k;
    assert c * c + s * s == 1.0 by { assert s * s + c * c == 1.0; }
    EllipseAlgebra(a, c, s, q, k);
  }

  /** The elliptic radius a (1 - e cos u) is positive for a positive axis. */
  lemma EllipticRadiusPositive(m: MathLib, a: real, e: real, u: real)
    requires SinCosBounded(m) && a > 0.0 && -1.0 < e < 1.0
    ensures EllipticPlane(m, a, e, u).r > 0.0
  {
    EllipticDenominatorPositive(m, e, u);
    MulMonotone(a, 0.0, 1.0 - e * m.cos(u));
  }

  /** With q^2 = k and c^2 + s^2 = 1: k (a c)^2 + (a q s)^2 = k a^2. */
  lemma EllipseAlgebra(a: real, c: real, s: real, q: real, k: real)
    requires q * q == k && c * c + s * s == 1.0
    ensures k * (a * c) * (a * c) + (a * q * s) * (a * q * s) == k * a * a
  {
    SquareOfProduct(a, q, s);
    assert k * (a * c) * (a * c) + (a * a) * k * (s * s) == k * (a * a) * (c * c + s * s);
  }

  lemma SquareOfProduct(x: real, y: real, z: real)
    ensures (x * y * z) * (x * y * z) == (x * x) * (y * y) * (z * z)
  {
  }

  // ---------------------------------------------------------------------------------
  // Hyperbolic orbits

  /** The Newton denominator e cosh u - 1 is positive for e > 1. */
  lemma HyperbolicDenominatorPositive(m: MathLib, e: real, u: real)
    requires HyperbolicIdentity(m) && e > 1.0
    ensures e * m.cosh(u) - 1.0 > 0.0
  {
    MulMonotone(e, 1.0, m.cosh(u));
  }

  /** One Newton step for e sinh u - u = l. */
  function HyperbolicStep(m: MathLib, l: real, e: real, u: real): real
    requires HyperbolicIdentity(m) && e > 1.0
  {
    HyperbolicDenominatorPositive(m, e, u);
    u + (l - e * m.sinh(u) + u) / (e * m.cosh(u) - 1.0)
  }

  function HyperbolicIterate(m: MathLib, l: real, e: real, k: nat): real
    requires HyperbolicIdentity(m) && e > 1.0
  {
    if k == 0 then l else HyperbolicStep(m, l, e, HyperbolicIterate(m, l, e, k - 1))
  }

  /** A Newton step leaves u unchanged exactly when u already solves e sinh u - u = l. */
  lemma HyperbolicFixedPoint(m: MathLib, l: real, e: real, u: real)
    requires HyperbolicIdentity(m) && e > 1.0
    ensures HyperbolicStep(m, l, e, u) == u <==> e * m.sinh(u) - u == l
  {
    HyperbolicDenominatorPositive(m, e, u);
    var num, den := l - e * m.sinh(u) + u, e * m.cosh(u) - 1.0;
    if num / den == 0.0 {
      assert num == (num / den) * den;
    }
  }

  /** The hyperbolic loop, whose counter is tested before it is incremented
      (`if (i++ > 100000) break`): it also performs at most 100002 updates, stopping earlier
      after the first update that moves u by at most 1e-5. */
  method SolveHyperbolic(m: MathLib, l: real, e: real) returns (u: real, updates: nat)
    requires HyperbolicIdentity(m) && e > 1.0
    ensures 1 <= updates <= MaxUpdates
    ensures u == HyperbolicIterate(m, l, e, updates)
    ensures forall k :: 1 <= k < updates ==>
      Abs(HyperbolicIterate(m, l, e, k - 1) - HyperbolicIterate(m, l, e, k)) > HyperbolicTolerance
    ensures updates < MaxUpdates ==>
      Abs(HyperbolicIterate(m, l, e, updates - 1) - HyperbolicIterate(m, l, e, updates)) <= HyperbolicTolerance
  {
    u := l;
    var i := 0;
    updates := 0;
    while true
      invariant updates == i <= MaxUpdates - 1
      invariant u == HyperbolicIterate(m, l, e, updates)
      invariant forall k :: 1 <= k <= updates ==>
        Abs(HyperbolicIterate(m, l, e, k - 1) - HyperbolicIterate(m, l, e, k)) > HyperbolicTolerance
      decreases MaxUpdates - updates
    {
      var ut := u;
      var deltaU := HyperbolicStep(m, l, e, u) - u;
      u := u + deltaU;
      updates := updates + 1;
      var before := i;
      i := i + 1;
      if before > 100000 {
        break;
      }
      if !(Abs(ut - u) > HyperbolicTolerance) {
        break;
      }
    }
  }

  function HyperbolicPlane(m: MathLib, a: real, e: real, u: real): OrbitalPlane
  {
    OrbitalPlane(a * (e - m.cosh(u)), a * m.sqrt(e * e - 1.0) * m.sinh(u), a * (1.0 - e * m.cosh(u)))
  }

  /** The hyperbolic position lies on the hyperbola with semi-major axis a and
      eccentricity e, (x - a e)^2 / a^2 - y^2 / (a^2 (e^2 - 1)) = 1; its `r` field,
      a (1 - e cosh u), is negative for a positive axis. */
  lemma {:induction false} HyperbolicPlaneOnHyperbola(m: MathLib, a: real, e: real, u: real)
    requires HyperbolicIdentity(m) && SqrtIsRoot(m)
    requires a > 0.0 && e > 1.0
    ensures var p := HyperbolicPlane(m, a, e, u);
      (e * e - 1.0) * (p.x - a * e) * (p.x - a * e) - p.y * p.y == (e * e - 1.0) * a * a
    ensures HyperbolicPlane(m, a, e, u).r < 0.0
  {
    var c, s := m.cosh(u), m.sinh(u);
    var k := e * e - 1.0;
    assert k > 0.0 by { MulMonotone(e, 1.0, e); }
    var q := m.sqrt(k);
    assert q * q == k;
    var p := HyperbolicPlane(m, a, e, u);
    assert p.x - a * e == -(a * c);
    assert p.y == a * q * s;
    SquareOfProduct(a, q, s);
    SquareOfProduct(a, c, 1.0);
    assert k * (a * c) * (a * c) - (a * a) * k * (s * s) == k * (a * a) * (c * c - s * s);
    assert c * c - s * s == 1.0;
    HyperbolicDenominatorPositive(m, e, u);
    MulMonotone(a, 1.0 - e * c, 0.0);
  }

  // ---------------------------------------------------------------------------------
  // The solver as a whole

  /** The axis the dispatched solver uses. */
  function SemiMajorAxis(el: OrbitalElements): real
  {
    var (solver, e) := Dispatch(el.eccentricity);
    if solver == Elliptic then EllipticSemiMajorAxis(el, e) else HyperbolicSemiMajorAxis(el, e)
  }

  /** The days from the chosen epoch to `jd`. Without an epoch `Number(undefined)` makes
      this NaN; the value 0 stands in for it, and only the elliptic path, which then takes
      the mean anomaly 0 without reading it, is run without an epoch. */
  function Elapsed(el: OrbitalElements, jd: real): real
  {
    if ChosenEpoch(el).Some? then jd - ChosenEpoch(el).value else 0.0
  }

  /** The stopping rule of the elliptic loop after `updates` updates: each earlier update
      moved u by more than the tolerance, and the last one by at most the tolerance unless
      the cap was reached. */
  predicate EllipticStopsAfter(m: MathLib, l: real, e: real, updates: nat)
    requires SinCosBounded(m) && -1.0 < e < 1.0
  {
    1 <= updates <= MaxUpdates
    && (forall k :: 1 <= k < updates ==>
          Abs(EllipticIterate(m, l, e, k - 1) - EllipticIterate(m, l, e, k)) > EllipticTolerance)
    && (updates < MaxUpdates ==>
          Abs(EllipticIterate(m, l, e, updates - 1) - EllipticIterate(m, l, e, updates)) <= EllipticTolerance)
  }

  /** The same rule for the hyperbolic loop. */
  predicate HyperbolicStopsAfter(m: MathLib, l: real, e: real, updates: nat)
    requires HyperbolicIdentity(m) && e > 1.0
  {
    1 <= updates <= MaxUpdates
    && (forall k :: 1 <= k < updates ==>
          Abs(HyperbolicIterate(m, l, e, k - 1) - HyperbolicIterate(m, l, e, k)) > HyperbolicTolerance)
    && (updates < MaxUpdates ==>
          Abs(HyperbolicIterate(m, l, e, updates - 1) - HyperbolicIterate(m, l, e, updates)) <= HyperbolicTolerance)
  }

  /** The elliptic branch from the mean anomaly `l` in radians: the Newton loop, the
      normalisation of u and the position in the orbital plane. */
  method EllipticOrbitPlane(m: MathLib, a: real, e: real, l: real) returns (plane: OrbitalPlane, updates: nat)
    requires SinCosBounded(m) && PiPositive(m) && -1.0 < e < 1.0
    ensures EllipticStopsAfter(m, l, e, updates)
    ensures plane == EllipticPlane(m, a, e, NormalizeEccentricAnomaly(m, EllipticIterate(m, l, e, updates)))
  {
    var u;
    u, updates := SolveElliptic(m, l, e);
    plane := EllipticPlane(m, a, e, NormalizeEccentricAnomaly(m, u));
  }

  /** The hyperbolic branch from the mean anomaly `l` in radians. */
  method HyperbolicOrbitPlane(m: MathLib, a: real, e: real, l: real) returns (plane: OrbitalPlane, updates: nat)
    requires HyperbolicIdentity(m) && e > 1.0
    ensures HyperbolicStopsAfter(m, l, e, updates)
    ensures plane == HyperbolicPlane(m, a, e, HyperbolicIterate(m, l, e, updates))
  {
    var u;
    u, updates := SolveHyperbolic(m, l, e);
    plane := HyperbolicPlane(m, a, e, u);
  }

  /** `FromKeplerian` up to the orbital plane, at Julian Date `jd`. The eccentricity is
      above -1, the axis is positive, and a hyperbolic orbit has an epoch; with these the
      arithmetic stays finite. */
  method OrbitalPlaneAt(m: MathLib, el: OrbitalElements, jd: real)
    returns (plane: OrbitalPlane, solver: Solver, updates: nat)
    requires SinCosBounded(m) && HyperbolicIdentity(m) && PiPositive(m)
    requires el.eccentricity > -1.0 && SemiMajorAxis(el) > 0.0
    requires el.eccentricity >= 1.0 ==> ChosenEpoch(el).Some?
    ensures solver == Dispatch(el.eccentricity).0
    ensures 1 <= updates <= MaxUpdates
    ensures ChosenEpoch(el).None? ==>
      solver == Elliptic && plane == EllipticPlane(m, SemiMajorAxis(el), el.eccentricity,
                                                   NormalizeEccentricAnomaly(m, EllipticIterate(m, 0.0, el.eccentricity, updates)))
    ensures var e, a := Dispatch(el.eccentricity).1, SemiMajorAxis(el);
      var n, elapsed := MeanMotion(m, a), Elapsed(el, jd);
      if solver == Elliptic then
        var l := Radians(m, ReduceMeanAnomaly(EllipticMeanAnomaly(el, n, elapsed)));
        EllipticStopsAfter(m, l, e, updates)
        && plane == EllipticPlane(m, a, e, NormalizeEccentricAnomaly(m, EllipticIterate(m, l, e, updates)))
      else
        var l := Radians(m, ReduceMeanAnomaly(HyperbolicMeanAnomaly(el, n, elapsed)));
        HyperbolicStopsAfter(m, l, e, updates)
        && plane == HyperbolicPlane(m, a, e, HyperbolicIterate(m, l, e, updates))
  {
    var (s, e) := Dispatch(el.eccentricity);
    DispatchSpec(el.eccentricity);
    solver := s;
    var a := SemiMajorAxis(el);
    var n := MeanMotion(m, a);
    var elapsed := Elapsed(el, jd);
    if solver == Elliptic {
      var l := Radians(m, ReduceMeanAnomaly(EllipticMeanAnomaly(el, n, elapsed)));
      plane, updates := EllipticOrbitPlane(m, a, e, l);
    } else {
      var l := Radians(m, ReduceMeanAnomaly(HyperbolicMeanAnomaly(el, n, elapsed)));
      plane, updates := HyperbolicOrbitPlane(m, a, e, l);
    }
  }
}
