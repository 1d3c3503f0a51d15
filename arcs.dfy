/** The grid generators of the sky sphere: the (right ascension, declination) pairs that
    trace one meridian or one parallel, the sets of meridians and parallels that make up the
    coordinate grid, and the conversion of such lists into points on a sphere of a given
    radius. The same functions appear, with identical logic, in both builds of the program. */
module Arcs {
  import opened MathFns
  import opened QuatVec

  /** One `[ra, dec]` pair, in degrees. */
  datatype RaDec = RaDec(ra: real, dec: real)

  /** `raCirclePoints`: the meridian at right ascension `ra`, from the south pole to the
      north pole in steps of 10 degrees of declination. */
  method RaCirclePoints(ra: real) returns (p: seq<RaDec>)
    ensures |p| == 19
    ensures forall k | 0 <= k < 19 :: p[k] == RaDec(ra, (-90 + 10 * k) as real)
  {
    p := [];
    var i := -90;
    while i <= 90
      invariant -90 <= i <= 100 && (i + 90) % 10 == 0
      invariant |p| == (i + 90) / 10
      invariant forall k | 0 <= k < |p| :: p[k] == RaDec(ra, (-90 + 10 * k) as real)
    {
      p := p + [RaDec(ra, i as real)];
      i := i + 10;
    }
  }

  /** `decCirclePoints`: the parallel at declination `dec`, one point per whole degree of
      right ascension from 0 to 359. */
  method DecCirclePoints(dec: real) returns (p: seq<RaDec>)
    ensures |p| == 360
    ensures forall k | 0 <= k < 360 :: p[k] == RaDec(k as real, dec)
  {
    p := [];
    var i := 0;
    while i < 360
      invariant 0 <= i <= 360 && |p| == i
      invariant forall k | 0 <= k < i :: p[k] == RaDec(k as real, dec)
    {
      p := p + [RaDec(i as real, dec)];
      i := i + 1;
    }
  }

  /** A meridian runs strictly northwards from pole to pole, and a parallel strictly
      eastwards. */
  lemma CirclesAreMonotone(meridian: seq<RaDec>, parallel: seq<RaDec>, ra: real, dec: real)
    requires |meridian| == 19 && forall k | 0 <= k < 19 :: meridian[k] == RaDec(ra, (-90 + 10 * k) as real)
    requires |parallel| == 360 && forall k | 0 <= k < 360 :: parallel[k] == RaDec(k as real, dec)
    ensures meridian[0].dec == -90.0 && meridian[18].dec == 90.0
    ensures forall j, k | 0 <= j < k < 19 :: meridian[j].dec < meridian[k].dec && meridian[j].ra == meridian[k].ra
    ensures forall j, k | 0 <= j < k < 360 :: parallel[j].ra < parallel[k].ra && parallel[j].dec == parallel[k].dec
  {
  }

  /** The meridians of `raGrid`: twelve of them, at right ascensions 0, 30, ..., 330. */
  method RaGrid() returns (g: seq<seq<RaDec>>)
    ensures |g| == 12
    ensures forall m | 0 <= m < 12 :: |g[m]| == 19
    ensures forall m, k | 0 <= m < 12 && 0 <= k < 19 :: g[m][k] == RaDec((30 * m) as real, (-90 + 10 * k) as real)
  {
    g := [];
    var i := 0;
    while i < 360
      invariant 0 <= i <= 360 && i % 30 == 0 && |g| == i / 30
      invariant forall m | 0 <= m < |g| :: |g[m]| == 19
      invariant forall m, k | 0 <= m < |g| && 0 <= k < 19 :: g[m][k] == RaDec((30 * m) as real, (-90 + 10 * k) as real)
    {
      var meridian := RaCirclePoints(i as real);
      g := g + [meridian];
      i := i + 30;
    }
  }

  /** The parallels of `decGrid`: nineteen of them, at declinations -90, -80, ..., 90. */
  method DecGrid() returns (g: seq<seq<RaDec>>)
    ensures |g| == 19
    ensures forall m | 0 <= m < 19 :: |g[m]| == 360
    ensures forall m, k | 0 <= m < 19 && 0 <= k < 360 :: g[m][k] == RaDec(k as real, (-90 + 10 * m) as real)
  {
    g := [];
    var i := -90;
    while i <= 90
      invariant -90 <= i <= 100 && (i + 90) % 10 == 0 && |g| == (i + 90) / 10
      invariant forall m | 0 <= m < |g| :: |g[m]| == 360
      invariant forall m, k | 0 <= m < |g| && 0 <= k < 360 :: g[m][k] == RaDec(k as real, (-90 + 10 * m) as real)
    {
      var parallel := DecCirclePoints(i as real);
      g := g + [parallel];
      i := i + 10;
    }
  }

  /** `DegsPerRad`. */
  function DegsPerRad(m: MathLib): real
    requires PiPositive(m)
  {
    180.0 / m.pi
  }

  /** `rhoThetaPhiToXYZ(rho, theta, phi)`, angles in degrees. */
  function RhoThetaPhiToXYZ(m: MathLib, rho: real, theta: real, phi: real): Vec
    requires PiPositive(m)
  {
    var t, f := theta / DegsPerRad(m), phi / DegsPerRad(m);
    Vec(-m.cos(t) * m.sin(f) * rho, m.sin(t) * rho, m.cos(t) * m.cos(f) * rho)
  }

  /** The point that `arcThrough` draws for one pair: the sphere point at declination
      `dec` and longitude `-ra`, with its z mirrored. */
  function ArcPoint(m: MathLib, sphereAt: real, radec: RaDec): Vec
    requires PiPositive(m)
  {
    var v1 := RhoThetaPhiToXYZ(m, sphereAt, radec.dec, -radec.ra);
    Vec(v1.x, v1.y, -v1.z)
  }

  /** Every point drawn lies on the sphere of radius `sphereAt` (mirroring z keeps it there). */
  lemma ArcPointOnSphere(m: MathLib, sphereAt: real, radec: RaDec)
    requires PiPositive(m)
    ensures Pythagorean(m) ==> VLenSq(ArcPoint(m, sphereAt, radec)) == sphereAt * sphereAt
  {
    if Pythagorean(m) {
      var t, f := radec.dec / DegsPerRad(m), -radec.ra / DegsPerRad(m);
      OnSphere(m.sin(t), m.cos(t), m.sin(f), m.cos(f), sphereAt);
    }
  }

  /** sin^2 + cos^2 = 1 for both angles puts the point on the sphere of radius `r`. */
  lemma OnSphere(st: real, ct: real, sf: real, cf: real, r: real)
    requires st * st + ct * ct == 1.0 && sf * sf + cf * cf == 1.0
    ensures (-ct * sf * r) * (-ct * sf * r) + (st * r) * (st * r) + (-(ct * cf * r)) * (-(ct * cf * r)) == r * r
  {
    var a, b := ct * ct * (r * r), st * st * (r * r);
    assert (-ct * sf * r) * (-ct * sf * r) + (st * r) * (st * r) + (-(ct * cf * r)) * (-(ct * cf * r))
           == a * (sf * sf + cf * cf) + b;
    ScaleEqual(a, sf * sf + cf * cf, 1.0);
    assert a + b == (st * st + ct * ct) * (r * r);
    ScaleEqual(r * r, st * st + ct * ct, 1.0);
  }

  /** `arcThrough`'s points: one per pair, in the same order. */
  function ArcPoints(m: MathLib, sphereAt: real, radecs: seq<RaDec>): (pts: seq<Vec>)
    requires PiPositive(m)
    ensures |pts| == |radecs|
    ensures Pythagorean(m) ==> forall i | 0 <= i < |pts| :: VLenSq(pts[i]) == sphereAt * sphereAt
  {
    if radecs == [] then []
    else
      ArcPointOnSphere(m, sphereAt, radecs[|radecs| - 1]);
      ArcPoints(m, sphereAt, radecs[..|radecs| - 1]) + [ArcPoint(m, sphereAt, radecs[|radecs| - 1])]
  }

  /** `arcSystemThrough`'s line list: one point list per pair list. */
  function ArcSystemPoints(m: MathLib, sphereAt: real, radecslist: seq<seq<RaDec>>): (lines: seq<seq<Vec>>)
    requires PiPositive(m)
    ensures |lines| == |radecslist|
    ensures forall i | 0 <= i < |lines| :: |lines[i]| == |radecslist[i]|
  {
    if radecslist == [] then []
    else ArcSystemPoints(m, sphereAt, radecslist[..|radecslist| - 1]) + [ArcPoints(m, sphereAt, radecslist[|radecslist| - 1])]
  }

  /** The conversion keeps the order of the pairs: point `i` comes from pair `i`. */
  lemma {:induction false} ArcPointsPointwise(m: MathLib, sphereAt: real, radecs: seq<RaDec>, i: nat)
    requires PiPositive(m) && i < |radecs|
    ensures ArcPoints(m, sphereAt, radecs)[i] == ArcPoint(m, sphereAt, radecs[i])
  {
    if i < |radecs| - 1 {
      ArcPointsPointwise(m, sphereAt, radecs[..|radecs| - 1], i);
    }
  }

  /** The line system keeps the nesting: line `i` is the conversion of pair list `i`. */
  lemma {:induction false} ArcSystemPointwise(m: MathLib, sphereAt: real, radecslist: seq<seq<RaDec>>, i: nat)
    requires PiPositive(m) && i < |radecslist|
    ensures ArcSystemPoints(m, sphereAt, radecslist)[i] == ArcPoints(m, sphereAt, radecslist[i])
  {
    if i < |radecslist| - 1 {
      ArcSystemPointwise(m, sphereAt, radecslist[..|radecslist| - 1], i);
    }
  }
}
