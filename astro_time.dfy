/** Time systems of the astronomy library: the calendar-to-Julian-Date conversion
    (Meeus, Astronomical Algorithms, chapter 7, formula 7.1 with the Gregorian term),
    Unix milliseconds to Julian Date, the modified and truncated Julian Dates, and the
    NASA (Espenak and Meeus) polynomial expressions for Delta T. */
module AstroTime {

  /** The Julian Date of the J2000.0 epoch. */
  const J2000: real := 2451545.0

  /** The Gregorian correction 2 - C + floor(C / 4) for the century count C = floor(Y / 100). */
  function GregorianOffset(y: int): int
  {
    var c := ((y as real) / 100.0).Floor;
    2 - c + ((c as real) / 4.0).Floor
  }

  /** The day number of formula 7.1 before the Gregorian correction. */
  function JulianCalendarDay(y: int, m: int, day: int): real
  {
    (365.25 * (y + 4716) as real).Floor as real + (30.6001 * (m + 1) as real).Floor as real
      + day as real - 1524.5
  }

  /** Universal time in the Gregorian calendar to Julian Date; January and February count
      as months 13 and 14 of the previous year. */
  function UtToJulianDate(year: int, month: int, day: int, hour: real, minute: real, second: real): real
  {
    var y := if month <= 2 then year - 1 else year;
    var m := if month <= 2 then month + 12 else month;
    var timeInDay := hour / 24.0 + minute / 1440.0 + second / 86400.0;
    JulianCalendarDay(y, m, day) + GregorianOffset(y) as real + timeInDay
  }

  /** A Date's milliseconds since 1970-01-01T00:00Z to Julian Date. */
  function DateToJulianDate(ms: real): real
  {
    ms / 86400000.0 + 2440587.5
  }

  function ModifiedJulianDate(jd: real): real
  {
    jd - 2400000.5
  }

  function TruncatedJulianDate(jd: real): int
  {
    (jd - 2440000.5).Floor
  }

  /** The Gregorian correction in integer arithmetic: 2 - floor(Y/100) + floor(Y/400). */
  lemma {:induction false} GregorianOffsetClosedForm(y: int)
    ensures GregorianOffset(y) == 2 - y / 100 + y / 400
  {
    var c := ((y as real) / 100.0).Floor;
    FloorDiv(y, 100);
    assert c == y / 100;
    FloorDiv(c, 4);
    assert ((c as real) / 4.0).Floor == c / 4;
    var q, r := y / 400, y % 400;
    assert y == 400 * q + r && 0 <= r < 400;
    assert y / 100 == 4 * q + r / 100 by {
      assert y == 100 * (4 * q + r / 100) + r % 100;
    }
    assert (4 * q + r / 100) / 4 == q;
  }

  /** Real division followed by Math.floor agrees with integer division for a positive divisor. */
  lemma FloorDiv(a: int, b: int)
    requires b > 0
    ensures ((a as real) / (b as real)).Floor == a / b
  {
    var q, r := a / b, a % b;
    assert a == b * q + r && 0 <= r < b;
    assert (a as real) / (b as real) == q as real + (r as real) / (b as real);
    assert 0.0 <= (r as real) / (b as real) < 1.0;
  }

  /** January and February are months 13 and 14 of the previous year. */
  lemma JanuaryFebruaryBelongToPreviousYear(year: int, month: int, day: int, hour: real, minute: real, second: real)
    requires month == 1 || month == 2
    ensures UtToJulianDate(year, month, day, hour, minute, second)
         == UtToJulianDate(year - 1, month + 12, day, hour, minute, second)
  {
  }

  /** The time of day adds hour/24 + minute/1440 + second/86400 to midnight's Julian Date. */
  lemma TimeOfDayIsFractionOfDay(year: int, month: int, day: int, hour: real, minute: real, second: real)
    ensures UtToJulianDate(year, month, day, hour, minute, second)
         == UtToJulianDate(year, month, day, 0.0, 0.0, 0.0) + hour / 24.0 + minute / 1440.0 + second / 86400.0
  {
  }

  /** 2000-01-01 12:00 UT is the J2000.0 epoch, JD 2451545.0. */
  lemma J2000Epoch()
    ensures UtToJulianDate(2000, 1, 1, 12.0, 0.0, 0.0) == J2000
  {
    assert (365.25 * 6715.0).Floor == 2452653;
    assert (30.6001 * 14.0).Floor == 428;
    assert GregorianOffset(1999) == -13 by {
      assert (1999.0 / 100.0).Floor == 19;
      assert (19.0 / 4.0).Floor == 4;
    }
  }

  /** 2024-01-01 00:00 UT is JD 2460310.5. */
  lemma NewYear2024()
    ensures UtToJulianDate(2024, 1, 1, 0.0, 0.0, 0.0) == 2460310.5
  {
    assert (365.25 * 6739.0).Floor == 2461419;
    assert (30.6001 * 14.0).Floor == 428;
    assert GregorianOffset(2023) == -13 by {
      assert (2023.0 / 100.0).Floor == 20;
      assert (20.0 / 4.0).Floor == 5;
    }
  }

  /** The two conversions agree at the Unix epoch, 1970-01-01 00:00 UT. */
  lemma UnixEpochAgrees()
    ensures DateToJulianDate(0.0) == UtToJulianDate(1970, 1, 1, 0.0, 0.0, 0.0)
  {
    assert (365.25 * 6685.0).Floor == 2441696;
    assert (30.6001 * 14.0).Floor == 428;
    assert GregorianOffset(1969) == -13 by {
      assert (1969.0 / 100.0).Floor == 19;
      assert (19.0 / 4.0).Floor == 4;
    }
  }

  /** The two conversions agree at J2000.0, 946728000000 ms after the Unix epoch. */
  lemma DateAtJ2000()
    ensures DateToJulianDate(946728000000.0) == J2000
  {
  }

  /** A day of 86400000 ms is one Julian day, and the MJD of a Date counts days from MJD 40587. */
  lemma ModifiedJulianDateOfDate(ms: real)
    ensures DateToJulianDate(ms + 86400000.0) == DateToJulianDate(ms) + 1.0
    ensures ModifiedJulianDate(DateToJulianDate(ms)) == ms / 86400000.0 + 40587.0
  {
  }

  /** The truncated Julian Date is the whole part of MJD - 40000, and is 11544 at J2000.0. */
  lemma TruncatedJulianDateOfModified(jd: real)
    ensures TruncatedJulianDate(jd) as real <= ModifiedJulianDate(jd) - 40000.0 < TruncatedJulianDate(jd) as real + 1.0
    ensures TruncatedJulianDate(J2000) == 11544 && ModifiedJulianDate(J2000) == 51544.5
  {
    assert (J2000 - 2440000.5).Floor == 11544;
  }

  // ---------------------------------------------------------------------------------
  // Delta T

  /** The fifteen year ranges of the Delta T expressions, each guard as `deltaT` writes it. */
  predicate EraGuard(k: nat, year: int)
  {
    match k
    case 0 => year <= -500
    case 1 => year > -500 && year <= 500
    case 2 => year > 500 && year <= 1600
    case 3 => year > 1600 && year <= 1700
    case 4 => year > 1700 && year <= 1800
    case 5 => year > 1800 && year <= 1860
    case 6 => year > 1860 && year <= 1900
    case 7 => year > 1900 && year <= 1920
    case 8 => year > 1920 && year <= 1941
    case 9 => year > 1941 && year <= 1961
    case 10 => year > 1961 && year <= 1986
    case 11 => year > 1986 && year <= 2005
    case 12 => year > 2005 && year <= 2050
    case 13 => year > 2050 && year <= 2150
    case 14 => year > 2150
    case _ => false
  }

  /** The decimal year at the middle of the month. */
  function DecimalYear(year: int, month: int): real
  {
    year as real + (month as real - 0.5) / 12.0
  }

  function Pow(x: real, n: nat): real
  {
    if n == 0 then 1.0 else x * Pow(x, n - 1)
  }

  /** The polynomial of era k at decimal year y, with `deltaT`'s coefficients. In era 1 the
      last coefficient multiplies u^5 a second time, as written. */
  function EraPolynomial(k: nat, y: real): real
  {
    match k
    case 0 => var u := (y - 1820.0) / 100.0; -20.0 + 32.0 * u * u
    case 1 => var u := y / 100.0;
      10583.6 - 1014.41 * u + 33.78311 * Pow(u, 2) - 5.952053 * Pow(u, 3) - 0.1798452 * Pow(u, 4)
        + 0.022174192 * Pow(u, 5) + 0.0090316521 * Pow(u, 5)
    case 2 => var u := (y - 1000.0) / 100.0;
      1574.2 - 556.01 * u + 71.23472 * Pow(u, 2) + 0.319781 * Pow(u, 3) - 0.8503463 * Pow(u, 4)
        - 0.005050998 * Pow(u, 5) + 0.0083572073 * Pow(u, 6)
    case 3 => var t := y - 1600.0; 120.0 - 0.9808 * t - 0.01532 * Pow(t, 2) + Pow(t, 3) / 7129.0
    case 4 => var t := y - 1700.0;
      8.83 + 0.1603 * t - 0.0059285 * Pow(t, 2) + 0.00013336 * Pow(t, 3) - Pow(t, 4) / 1174000.0
    case 5 => var t := y - 1800.0;
      13.72 - 0.332447 * t + 0.0068612 * Pow(t, 2) + 0.0041116 * Pow(t, 3) - 0.00037436 * Pow(t, 4)
        + 0.0000121272 * Pow(t, 5) - 0.0000001699 * Pow(t, 6) + 0.000000000875 * Pow(t, 7)
    case 6 => var t := y - 1860.0;
      7.62 + 0.5737 * t - 0.251754 * Pow(t, 2) + 0.01680668 * Pow(t, 3) - 0.0004473624 * Pow(t, 4)
        + Pow(t, 5) / 233174.0
    case 7 => var t := y - 1900.0;
      -2.79 + 1.494119 * t - 0.0598939 * Pow(t, 2) + 0.0061966 * Pow(t, 3) - 0.000197 * Pow(t, 4)
    case 8 => var t := y - 1920.0; 21.20 + 0.84493 * t - 0.076100 * Pow(t, 2) + 0.0020936 * Pow(t, 3)
    case 9 => var t := y - 1950.0; 29.07 + 0.407 * t - Pow(t, 2) / 233.0 + Pow(t, 3) / 2547.0
    case 10 => var t := y - 1975.0; 45.45 + 1.067 * t - Pow(t, 2) / 260.0 - Pow(t, 3) / 718.0
    case 11 => var t := y - 2000.0;
      63.86 + 0.3345 * t - 0.060374 * Pow(t, 2) + 0.0017275 * Pow(t, 3) + 0.000651814 * Pow(t, 4)
        + 0.00002373599 * Pow(t, 5)
    case 12 => var t := y - 2000.0; 62.92 + 0.32217 * t + 0.005589 * Pow(t, 2)
    case 13 => -20.0 + 32.0 * ((y - 1820.0) / 100.0) * ((y - 1820.0) / 100.0) - 0.5628 * (2150.0 - y)
    case _ => var u := (y - 1820.0) / 100.0; -20.0 + 32.0 * u * u
  }

  /** Delta T in seconds, selected by the first guard that holds; 0 if none did. */
  function DeltaT(year: int, month: int): real
  {
    var y := DecimalYear(year, month);
    if EraGuard(0, year) then EraPolynomial(0, y)
    else if EraGuard(1, year) then EraPolynomial(1, y)
    else if EraGuard(2, year) then EraPolynomial(2, y)
    else if EraGuard(3, year) then EraPolynomial(3, y)
    else if EraGuard(4, year) then EraPolynomial(4, y)
    else if EraGuard(5, year) then EraPolynomial(5, y)
    else if EraGuard(6, year) then EraPolynomial(6, y)
    else if EraGuard(7, year) then EraPolynomial(7, y)
    else if EraGuard(8, year) then EraPolynomial(8, y)
    else if EraGuard(9, year) then EraPolynomial(9, y)
    else if EraGuard(10, year) then EraPolynomial(10, y)
    else if EraGuard(11, year) then EraPolynomial(11, y)
    else if EraGuard(12, year) then EraPolynomial(12, y)
    else if EraGuard(13, year) then EraPolynomial(13, y)
    else if EraGuard(14, year) then EraPolynomial(14, y)
    else 0.0
  }

  /** The era a year belongs to, read off the range boundaries. */
  function Era(year: int): (k: nat)
    ensures k <= 14
  {
    if year <= -500 then 0 else if year <= 500 then 1 else if year <= 1600 then 2
    else if year <= 1700 then 3 else if year <= 1800 then 4 else if year <= 1860 then 5
    else if year <= 1900 then 6 else if year <= 1920 then 7 else if year <= 1941 then 8
    else if year <= 1961 then 9 else if year <= 1986 then 10 else if year <= 2005 then 11
    else if year <= 2050 then 12 else if year <= 2150 then 13 else 14
  }

  /** The guards partition the year line: exactly one holds for every year, and DeltaT
      evaluates that era's polynomial (the fall-through value 0 is never reached). */
  lemma EraGuardsPartition(year: int, month: int)
    ensures EraGuard(Era(year), year)
    ensures forall k: nat :: EraGuard(k, year) ==> k == Era(year)
    ensures DeltaT(year, month) == EraPolynomial(Era(year), DecimalYear(year, month))
  {
  }

  /** Before -500 and after 2150 the same parabola -20 + 32 u^2, u = (y - 1820) / 100, is used. */
  lemma OuterErasShareParabola(year: int, month: int)
    requires year <= -500 || year > 2150
    ensures var u := (DecimalYear(year, month) - 1820.0) / 100.0;
      DeltaT(year, month) == -20.0 + 32.0 * u * u
  {
  }

  /** The 2050-2150 expression meets the long-term parabola at 2150. */
  lemma ParabolaCorrectionVanishesAt2150()
    ensures EraPolynomial(13, 2150.0) == EraPolynomial(14, 2150.0)
  {
  }

  /** As written, the -500..500 expression repeats u^5 where the published expression has
      0.0090316521 u^6; Delta T then jumps by more than 100 s from December 500 to January 501. */
  lemma DeltaTJumpsAtYear500AsWritten()
    ensures DeltaT(501, 1) - DeltaT(500, 12) > 100.0
  {
    EraGuardsPartition(500, 12);
    EraGuardsPartition(501, 1);
  }

  /** The -500..500 expression with its sixth-degree term. */
  function Era1Corrected(y: real): real
  {
    var u := y / 100.0;
    10583.6 - 1014.41 * u + 33.78311 * Pow(u, 2) - 5.952053 * Pow(u, 3) - 0.1798452 * Pow(u, 4)
      + 0.022174192 * Pow(u, 5) + 0.0090316521 * Pow(u, 6)
  }

  /** Delta T with the sixth-degree term restored in the -500..500 era. */
  function DeltaTCorrected(year: int, month: int): real
  {
    if EraGuard(1, year) then Era1Corrected(DecimalYear(year, month)) else DeltaT(year, month)
  }

  /** With u^6 restored, Delta T changes by less than 2 s at year 500 and less than 5 s at
      year -500, where as written it changes by more than 170 s. */
  lemma DeltaTCorrectedContinuousAtEra1Ends()
    ensures -2.0 < DeltaTCorrected(501, 1) - DeltaTCorrected(500, 12) < 2.0
    ensures -5.0 < DeltaTCorrected(-499, 1) - DeltaTCorrected(-500, 12) < 5.0
    ensures DeltaT(-499, 1) - DeltaT(-500, 12) < -170.0
  {
    EraGuardsPartition(501, 1);
    EraGuardsPartition(-500, 12);
    var u := DecimalYear(-499, 1) / 100.0;
    assert u == -479.0 / 96.0;
    assert Pow(u, 2) == u * u;
    assert Pow(u, 3) == u * Pow(u, 2);
    assert Pow(u, 4) == u * Pow(u, 3);
    assert Pow(u, 5) == u * Pow(u, 4);
    assert Pow(u, 6) == u * Pow(u, 5);
  }
}
