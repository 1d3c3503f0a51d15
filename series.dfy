/** The two summations of periodic terms in the astronomy library: the VSOP87 planet
    series of `PlanetPositionEcliptic`, accumulated per axis into a three-element array,
    and the lunar series of `MoonPosition` (Meeus, Astronomical Algorithms, chapter 47),
    whose terms are scaled by the Earth-orbit eccentricity factor E once per unit of the
    Sun's mean anomaly. The cosine and sine are inputs. */
module Series {
  import opened Js
  import AstroTime

  const MetersPerAu: real := 149597870700.0

  /** One VSOP87 term `[axis, power, A, B, C]`: t^power A cos(B + C t). */
  datatype PlanetTerm = PlanetTerm(axis: nat, power: nat, a: real, b: real, c: real)

  /** Julian millennia since J2000.0. */
  function Millennia(jd: real): real
  {
    (jd - AstroTime.J2000) / 365250.0
  }

  function TermValue(term: PlanetTerm, t: real, cos: real -> real): real
  {
    AstroTime.Pow(t, term.power) * term.a * cos(term.b + term.c * t)
  }

  /** The sum of the values of the terms on one axis. */
  function AxisSum(terms: seq<PlanetTerm>, axis: nat, t: real, cos: real -> real): real
  {
    if terms == [] then 0.0
    else
      var last := terms[|terms| - 1];
      AxisSum(terms[..|terms| - 1], axis, t, cos) + (if last.axis == axis then TermValue(last, t, cos) else 0.0)
  }

  /** The series of a concatenation is the sum of the series: the order of the terms
      within a list does not matter to the result. */
  lemma {:induction false} AxisSumAppend(s1: seq<PlanetTerm>, s2: seq<PlanetTerm>, axis: nat, t: real, cos: real -> real)
    ensures AxisSum(s1 + s2, axis, t, cos) == AxisSum(s1, axis, t, cos) + AxisSum(s2, axis, t, cos)
    decreases |s2|
  {
    if s2 == [] {
      assert s1 + s2 == s1;
    } else {
      var init := s2[..|s2| - 1];
      assert (s1 + s2)[..|s1 + s2| - 1] == s1 + init;
      AxisSumAppend(s1, init, axis, t, cos);
    }
  }

  /** Terms for another axis never change an axis's sum. */
  lemma {:induction false} AxisSumIgnoresOtherAxes(terms: seq<PlanetTerm>, axis: nat, t: real, cos: real -> real)
    requires forall i :: 0 <= i < |terms| ==> terms[i].axis != axis
    ensures AxisSum(terms, axis, t, cos) == 0.0
  {
    if terms != [] {
      AxisSumIgnoresOtherAxes(terms[..|terms| - 1], axis, t, cos);
    }
  }

  /** The sum of A cos B over the terms of power 0 on one axis. */
  function PowerZeroSum(terms: seq<PlanetTerm>, axis: nat, cos: real -> real): real
  {
    if terms == [] then 0.0
    else
      var last := terms[|terms| - 1];
      PowerZeroSum(terms[..|terms| - 1], axis, cos)
        + (if last.axis == axis && last.power == 0 then last.a * cos(last.b) else 0.0)
  }

  /** At J2000.0 (t = 0) only the terms of power 0 contribute, each A cos B; so a list
      whose terms all have a positive power sums to 0 there. */
  lemma {:induction false} AxisSumAtEpoch(terms: seq<PlanetTerm>, axis: nat, cos: real -> real)
    ensures AxisSum(terms, axis, 0.0, cos) == PowerZeroSum(terms, axis, cos)
    ensures (forall i :: 0 <= i < |terms| ==> terms[i].power > 0) ==> AxisSum(terms, axis, 0.0, cos) == 0.0
  {
    if terms != [] {
      var init, last := terms[..|terms| - 1], terms[|terms| - 1];
      AxisSumAtEpoch(init, axis, cos);
      if last.power > 0 {
        assert AstroTime.Pow(0.0, last.power) == 0.0 * AstroTime.Pow(0.0, last.power - 1);
      }
      assert TermValue(last, 0.0, cos) == if last.power == 0 then last.a * cos(last.b) else 0.0;
      if forall i :: 0 <= i < |terms| ==> terms[i].power > 0 {
        assert forall i :: 0 <= i < |init| ==> init[i] == terms[i];
      }
    }
  }

  /** `PlanetPositionEcliptic`: each term is added into `v[axis]`; the position is the
      three sums in metres. A term whose axis is not 0, 1 or 2 lands outside the three
      read entries and so does not affect the position. */
  method PlanetPositionEcliptic(terms: seq<PlanetTerm>, jd: real, cos: real -> real)
    returns (x: real, y: real, z: real)
    ensures var t := Millennia(jd);
      && x == AxisSum(terms, 0, t, cos) * MetersPerAu
      && y == AxisSum(terms, 1, t, cos) * MetersPerAu
      && z == AxisSum(terms, 2, t, cos) * MetersPerAu
  {
    var t := Millennia(jd);
    var v := new real[3];
    v[0], v[1], v[2] := 0.0, 0.0, 0.0;
    for i := 0 to |terms|
      invariant forall k :: 0 <= k < 3 ==> v[k] == AxisSum(terms[..i], k, t, cos)
    {
      var n := terms[i].axis;
      assert terms[..i + 1][..i] == terms[..i];
      if n < 3 {
        v[n] := v[n] + TermValue(terms[i], t, cos);
      }
    }
    assert terms[..|terms|] == terms;
    x, y, z := v[0] * MetersPerAu, v[1] * MetersPerAu, v[2] * MetersPerAu;
  }

  // ---------------------------------------------------------------------------------
  // Lunar series

  /** A row of the lunar tables: multiples of D, M, M' and F and the coefficients (the
      longitude and distance columns of the LR table, or the one latitude column of B,
      kept in `first`). */
  datatype LunaRow = LunaRow(d: int, m: int, mp: int, f: int, first: real, second: real)

  /** The eccentricity factor of a term with `m` multiples of the Sun's mean anomaly. */
  function EccentricityFactor(m: int, e: real): real
  {
    if m == 1 || m == -1 then e
    else if m == 2 || m == -2 then e * e
    else 1.0
  }

  /** Meeus's rule: the factor is E^|m| for the multiples that occur in the tables. */
  lemma EccentricityFactorIsPower(m: int, e: real)
    requires -2 <= m <= 2
    ensures EccentricityFactor(m, e) == AstroTime.Pow(e, if m < 0 then -m else m)
  {
    if m == 2 || m == -2 {
      assert AstroTime.Pow(e, 1) == e * AstroTime.Pow(e, 0) == e;
      assert AstroTime.Pow(e, 2) == e * AstroTime.Pow(e, 1);
    }
  }

  /** The mean elongation, mean anomalies and argument of latitude, in radians. */
  datatype Arguments = Arguments(d0: real, m0: real, m1: real, f0: real)

  function RowValue(row: LunaRow, second: bool, wave: real -> real, a: Arguments, e: real): real
  {
    var coef := if second then row.second else row.first;
    var arg := row.d as real * a.d0 + row.m as real * a.m0 + row.mp as real * a.m1 + row.f as real * a.f0;
    coef * wave(arg) * EccentricityFactor(row.m, e)
  }

  function SigmaSpec(rows: seq<LunaRow>, second: bool, wave: real -> real, a: Arguments, e: real): real
  {
    if rows == [] then 0.0
    else SigmaSpec(rows[..|rows| - 1], second, wave, a, e) + RowValue(rows[|rows| - 1], second, wave, a, e)
  }

  /** The loop of `SigmaL`, `SigmaR` and `SigmaB`: `wave` is sine for the longitude and
      latitude sums and cosine for the distance sum. */
  method SigmaLoop(rows: seq<LunaRow>, second: bool, wave: real -> real, a: Arguments, e: real)
    returns (result: real)
    ensures result == SigmaSpec(rows, second, wave, a, e)
  {
    result := 0.0;
    for i := 0 to |rows|
      invariant result == SigmaSpec(rows[..i], second, wave, a, e)
    {
      assert rows[..i + 1][..i] == rows[..i];
      result := result + RowValue(rows[i], second, wave, a, e);
    }
    assert rows[..|rows|] == rows;
  }

  /** The lunar sum over two tables in a row is the sum of the two sums. */
  lemma {:induction false} SigmaAppend(r1: seq<LunaRow>, r2: seq<LunaRow>, second: bool, wave: real -> real, a: Arguments, e: real)
    ensures SigmaSpec(r1 + r2, second, wave, a, e) == SigmaSpec(r1, second, wave, a, e) + SigmaSpec(r2, second, wave, a, e)
    decreases |r2|
  {
    if r2 == [] {
      assert r1 + r2 == r1;
    } else {
      var init := r2[..|r2| - 1];
      assert (r1 + r2)[..|r1 + r2| - 1] == r1 + init;
      SigmaAppend(r1, init, second, wave, a, e);
    }
  }

  /** A row without the Sun's anomaly (m = 0) is not scaled by E, whatever E is. */
  lemma RowWithoutSunAnomaly(row: LunaRow, second: bool, wave: real -> real, a: Arguments, e1: real, e2: real)
    requires row.m == 0
    ensures RowValue(row, second, wave, a, e1) == RowValue(row, second, wave, a, e2)
  {
  }
}
