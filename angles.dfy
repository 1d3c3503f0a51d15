/** Normalisation of angles and hours in the astronomy library: the two wrapping idioms
    it uses (two sequential `if`s for Greenwich sidereal time and right ascension, an
    `if`/`else if` in `round_angle`), and the local sidereal time and hour angle built on
    the wrapped sidereal time. */
module Angles {
  import opened Js

  /** `if (x < 0) x = x % p + p; if (x > p) x = x % p;` with the period `p`. */
  function WrapSequential(x: real, p: real): real
    requires p > 0.0
  {
    var a := if x < 0.0 then Rem(x, p) + p else x;
    if a > p then Rem(a, p) else a
  }

  /** The final step of `greenwichSiderealHoursFromJd`: hours wrapped with period 24. */
  function WrapSiderealHours(gmst: real): real
  {
    WrapSequential(gmst, 24.0)
  }

  /** The right-ascension wrap of `EclipticToEquatorial`, degrees with period 360. */
  function WrapRightAscension(ra: real): real
  {
    WrapSequential(ra, 360.0)
  }

  /** `round_angle`. */
  function RoundAngle(angle: real): real
  {
    if angle > 360.0 then Rem(angle, 360.0)
    else if angle < 0.0 then Rem(angle, 360.0) + 360.0
    else angle
  }

  /** The sequential wrap lands in [0, p], keeps values already there, and changes the
      value by a whole number of periods. */
  lemma {:induction false} WrapSequentialSpec(x: real, p: real)
    requires p > 0.0
    ensures 0.0 <= WrapSequential(x, p) <= p
    ensures 0.0 <= x <= p ==> WrapSequential(x, p) == x
    ensures Congruent(WrapSequential(x, p), x, p)
  {
    if x < 0.0 {
      RemNegative(x, p);
      RemCongruent(x, p);
      CongruentAddPeriod(Rem(x, p), p);
      CongruentTrans(Rem(x, p) + p, Rem(x, p), x, p);
    } else if x > p {
      RemNonNegative(x, p);
      RemCongruent(x, p);
    } else {
      assert (x - x) / p == 0.0;
    }
  }

  /** `round_angle` maps every angle into [0, 360], leaves [0, 360] unchanged, is
      idempotent and keeps the angle modulo 360. */
  lemma {:induction false} RoundAngleSpec(angle: real)
    ensures 0.0 <= RoundAngle(angle) <= 360.0
    ensures 0.0 <= angle <= 360.0 ==> RoundAngle(angle) == angle
    ensures RoundAngle(RoundAngle(angle)) == RoundAngle(angle)
    ensures Congruent(RoundAngle(angle), angle, 360.0)
  {
    WrapSequentialSpec(angle, 360.0);
    RoundAngleIsWrap(angle);
  }

  /** The two idioms agree: the second `if` of the sequential wrap never fires after the
      first one did, so it computes the same as `round_angle`'s `else if`. */
  lemma {:induction false} RoundAngleIsWrap(angle: real)
    ensures RoundAngle(angle) == WrapRightAscension(angle)
  {
    if angle < 0.0 {
      RemNegative(angle, 360.0);
    }
  }

  /** Greenwich sidereal time after the wrap lies in [0, 24] hours and differs from the
      unwrapped value by whole days; the right ascension lies in [0, 360]. */
  lemma SiderealAndRightAscensionRanges(gmst: real, ra: real)
    ensures 0.0 <= WrapSiderealHours(gmst) <= 24.0 && Congruent(WrapSiderealHours(gmst), gmst, 24.0)
    ensures 0.0 <= WrapRightAscension(ra) <= 360.0 && Congruent(WrapRightAscension(ra), ra, 360.0)
  {
    WrapSequentialSpec(gmst, 24.0);
    WrapSequentialSpec(ra, 360.0);
  }

  /** `localSiderealDegrees`: `siderealHours` is the unwrapped Greenwich sidereal time of
      the given time, or None when no time is given. */
  function LocalSiderealDegrees(siderealHours: Option<real>, longitude: real): real
  {
    match siderealHours
    case None => longitude
    case Some(gmst) =>
      var g := WrapSiderealHours(gmst) * 360.0 / 24.0;
      Rem(g + longitude + 360.0, 360.0)
  }

  /** `localHADegrees`. */
  function LocalHourAngleDegrees(siderealHours: Option<real>, longitude: real, ra: real): real
  {
    Rem(LocalSiderealDegrees(siderealHours, longitude) - ra + 360.0, 360.0)
  }

  /** Without a time the longitude is returned unchanged; with one, and a longitude not
      below -360, the local sidereal angle lies in [0, 360) and equals 15 degrees per
      sidereal hour plus the longitude, modulo 360. */
  lemma {:induction false} LocalSiderealSpec(siderealHours: Option<real>, longitude: real)
    ensures siderealHours.None? ==> LocalSiderealDegrees(siderealHours, longitude) == longitude
    ensures siderealHours.Some? && longitude >= -360.0 ==>
      0.0 <= LocalSiderealDegrees(siderealHours, longitude) < 360.0
    ensures siderealHours.Some? ==>
      Congruent(LocalSiderealDegrees(siderealHours, longitude), 15.0 * siderealHours.value + longitude, 360.0)
  {
    if siderealHours.Some? {
      var gmst := siderealHours.value;
      var w := WrapSiderealHours(gmst);
      WrapSequentialSpec(gmst, 24.0);
      var g := w * 360.0 / 24.0;
      assert g == 15.0 * w;
      var x := g + longitude + 360.0;
      if longitude >= -360.0 {
        RemNonNegative(x, 360.0);
      }
      RemCongruent(x, 360.0);
      CongruentScale(w, gmst, 24.0, 15.0);
      assert 15.0 * 24.0 == 360.0;
      CongruentShift(15.0 * w, 15.0 * gmst, longitude, 360.0);
      CongruentAddPeriod(g + longitude, 360.0);
      CongruentTrans(x, g + longitude, 15.0 * gmst + longitude, 360.0);
      CongruentTrans(Rem(x, 360.0), x, 15.0 * gmst + longitude, 360.0);
    }
  }

  /** The hour angle lies in [0, 360) whenever the right ascension is at most the local
      sidereal angle plus 360, and is the local sidereal angle minus the right ascension
      modulo 360. */
  lemma {:induction false} LocalHourAngleSpec(siderealHours: Option<real>, longitude: real, ra: real)
    ensures ra <= LocalSiderealDegrees(siderealHours, longitude) + 360.0 ==>
      0.0 <= LocalHourAngleDegrees(siderealHours, longitude, ra) < 360.0
    ensures Congruent(LocalHourAngleDegrees(siderealHours, longitude, ra),
                      LocalSiderealDegrees(siderealHours, longitude) - ra, 360.0)
  {
    var lst := LocalSiderealDegrees(siderealHours, longitude);
    var x := lst - ra + 360.0;
    if ra <= lst + 360.0 {
      RemNonNegative(x, 360.0);
    }
    RemCongruent(x, 360.0);
    CongruentAddPeriod(lst - ra, 360.0);
    CongruentTrans(Rem(x, 360.0), x, lst - ra, 360.0);
  }
}
