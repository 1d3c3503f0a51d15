# BabyPlanetarium core in Dafny

BabyPlanetarium is a WebXR planetarium. It draws the sky at a chosen place and time: stars from a catalogue, the Sun, Moon and planets, constellation figures and a coordinate grid. The user moves through time and changes settings with controller buttons. This project models the parts of it that compute rather than render, and proves properties of them.

- **Time and angles** (`astro_time.dfy`, `angles.dfy`, `js.dfy`):
  - calendar date and Unix milliseconds to Julian Date, and the modified and truncated Julian Dates;
  - the NASA Delta T polynomials, era by era;
  - the wrapping of sidereal time, right ascension and `round_angle`;
  - local sidereal time and hour angle.
  - JavaScript's truncated `%`, `Math.floor` and the truncation done by `new Date(ms)` are written out explicitly in `js.dfy`.
- **Bodies and stars** (`magnitude.dfy`, `star_color.dfy`, `catalogue.dfy`, `solar_system.dfy`):
  - the magnitude rules of the planets;
  - the black-body colour table;
  - the pointer search over the magnitude-ordered star catalogue;
  - the table `calcSolarSystem` builds, and the pointer search over it.
- **Orbits and series** (`kepler.dfy`, `series.dfy`, `math_fns.dfy`):
  - the Kepler solver up to the orbital plane: the epoch choice, the dispatch on eccentricity, and the Newton loops with their iteration caps;
  - the VSOP87 accumulation of planet terms;
  - the lunar sums with their eccentricity factor.
  - Trigonometric, hyperbolic and square-root functions are a `MathLib` parameter. Each proof states exactly the identities it uses.
- **Vectors and quaternions** (`quatvec.dfy`): vector arithmetic, normalisation, the half-turn quaternion rotation, and `move_v3_from_v1_to_v2`.
- **Scene life cycle** (`babylife.dfy`):
  - entities in a tree, each with init and update callbacks and a set of parameter names it depends on;
  - the scene's parameter dictionaries;
  - parent-first and child-first traversals;
  - `init`, and `update`, which runs only the entities whose dependencies changed.
- **Constellations** (`constellations.dfy`): the three create-or-update passes that merge boundaries, figure lines and label positions into one table keyed by constellation id.
- **Sky grid** (`arcs.dfy`): the meridian and parallel generators, and the mapping of (right ascension, declination) lists onto the sky sphere.
- **Program clock and controls** (`program_time.dfy`, `controls.dfy`):
  - the program clock: its speed index, its cyclic increment selector, and rebasing when the speed changes;
  - the latitude, longitude and planet-size adjusters, and the floor/daylight toggle;
  - the auto-repeat timing of the controller buttons.
  - The repository has two builds of these files, one under `src/` and one in the global namespace. They share their logic and differ in the clock's increment table, so the clock is parameterised by that table.

Wall-clock readings, callbacks and library functions are parameters. Numbers are exact reals.

## Model

| member | source | states |
|---|---|---|
| AstroTime.GregorianOffsetClosedForm | src/astro/astro.ts:28-29 | the correction 2 - C + floor(C/4), with C = floor(Y/100) taken through real division, equals 2 - Y div 100 + Y div 400 for every year, negative ones included |
| AstroTime.GregorianOffset | src/astro/astro.ts:28-29 | the Gregorian correction of utToJulianDate, taken through real division; AstroTime.GregorianOffsetClosedForm states its integer closed form |
| AstroTime.JanuaryFebruaryBelongToPreviousYear | src/astro/astro.ts:22-25 | January and February are converted as months 13 and 14 of the previous year |
| AstroTime.TimeOfDayIsFractionOfDay | src/astro/astro.ts:27-30 | the time of day adds hour/24 + minute/1440 + second/86400 to midnight's Julian Date |
| AstroTime.J2000Epoch | src/astro/astro.ts:19-31 | 2000-01-01 12:00 UT converts to JD 2451545.0 |
| AstroTime.NewYear2024 | src/astro/astro.ts:19-31 | 2024-01-01 00:00 UT converts to JD 2460310.5 |
| AstroTime.UtToJulianDate | src/astro/astro.ts:20-31 | utToJulianDate; AstroTime.JanuaryFebruaryBelongToPreviousYear, AstroTime.TimeOfDayIsFractionOfDay, AstroTime.J2000Epoch and AstroTime.NewYear2024 state its month shift, its time of day and its values at two dates |
| AstroTime.UnixEpochAgrees | src/astro/astro.ts:19-35 | the date conversion and the millisecond conversion agree at the Unix epoch |
| AstroTime.DateAtJ2000 | src/astro/astro.ts:33-35 | 946728000000 ms after the Unix epoch is JD 2451545.0 |
| AstroTime.DateToJulianDate | src/astro/astro.ts:33-35 | dateToJulianDate, milliseconds since the Unix epoch to Julian Date; AstroTime.DateAtJ2000 and AstroTime.UnixEpochAgrees state its value at J2000.0 and its agreement with utToJulianDate |
| AstroTime.ModifiedJulianDateOfDate | src/astro/astro.ts:59-61 | a day of 86400000 ms is one Julian day, and the MJD of a Date counts days from MJD 40587 |
| AstroTime.ModifiedJulianDate | src/astro/astro.ts:59-61 | jdToModifiedJulianDate; AstroTime.ModifiedJulianDateOfDate states it counts days from MJD 40587 at the Unix epoch |
| AstroTime.TruncatedJulianDateOfModified | src/astro/astro.ts:63-65 | the truncated Julian Date is the whole part of MJD - 40000, and 11544 at J2000.0 |
| AstroTime.TruncatedJulianDate | src/astro/astro.ts:63-65 | jdToTruncatedJulianDate; AstroTime.TruncatedJulianDateOfModified states it is the whole part of MJD - 40000 |
| AstroTime.EraGuardsPartition | src/astro/astro.ts:67-123 | exactly one of the fifteen year guards holds for every year, so deltaT always evaluates that era's polynomial and never returns its initial 0 |
| AstroTime.EraGuard | src/astro/astro.ts:73-121 | the fifteen year guards of deltaT; AstroTime.EraGuardsPartition states that exactly one holds for every year |
| AstroTime.DecimalYear | src/astro/astro.ts:69 | the decimal year year + (month - 0.5)/12 at which deltaT evaluates its polynomial |
| AstroTime.EraPolynomial | src/astro/astro.ts:73-121 | the fifteen Delta T expressions with their coefficients; AstroTime.OuterErasShareParabola and AstroTime.ParabolaCorrectionVanishesAt2150 state how the outer ones meet |
| AstroTime.DeltaT | src/astro/astro.ts:67-123 | deltaT; AstroTime.EraGuardsPartition states it always evaluates the polynomial of the year's era |
| AstroTime.OuterErasShareParabola | src/astro/astro.ts:73-121 | before -500 and after 2150 Delta T is -20 + 32 u^2 with u = (y - 1820)/100 |
| AstroTime.ParabolaCorrectionVanishesAt2150 | src/astro/astro.ts:112-121 | the 2050-2150 expression meets the long-term parabola at 2150 |
| AstroTime.DeltaTJumpsAtYear500AsWritten | src/astro/astro.ts:76-78 | as written, Delta T jumps by more than 100 s from December 500 to January 501 |
| AstroTime.DeltaTCorrectedContinuousAtEra1Ends | src/astro/astro.ts:73-81 | with the u^6 term restored the jumps at 500 and -500 are under 2 s and 5 s; as written the drop at -500 is more than 170 s |
| AstroTime.DeltaTCorrected | src/astro/astro.ts:76-78 | Delta T with the sixth-degree term restored; AstroTime.DeltaTCorrectedContinuousAtEra1Ends states its small jumps at -500 and 500 |
| Angles.WrapSequentialSpec | src/astro/astro.ts:54-55 | the two sequential ifs land in [0, p], keep values already there and change the value by whole periods |
| Angles.WrapSiderealHours | src/astro/astro.ts:54-55 | the sidereal-time wrap to [0, 24]; Angles.SiderealAndRightAscensionRanges states its range and period |
| Angles.WrapRightAscension | src/astro/astro.ts:448-453 | the right-ascension wrap to [0, 360]; Angles.SiderealAndRightAscensionRanges and Angles.RoundAngleIsWrap state its range and its agreement with round_angle |
| Angles.RoundAngleSpec | src/astro/astro.ts:655-664 | round_angle lands in [0, 360], keeps [0, 360], is idempotent and keeps the angle modulo 360 |
| Angles.RoundAngle | src/astro/astro.ts:655-664 | round_angle; Angles.RoundAngleSpec states its range, idempotence and congruence modulo 360 |
| Angles.RoundAngleIsWrap | src/astro/astro.ts:448-453 | the right-ascension wrap (two sequential ifs) computes the same as round_angle's if/else if |
| Angles.SiderealAndRightAscensionRanges | src/astro/astro.ts:54-55 | wrapped sidereal time lies in [0, 24] and differs from the unwrapped value by whole days; right ascension likewise in [0, 360] |
| Angles.LocalSiderealSpec | src/astro/astro.ts:166-172 | without a time the longitude is returned; with one the result lies in [0, 360) and is 15 degrees per sidereal hour plus the longitude, modulo 360 |
| Angles.LocalSiderealDegrees | src/astro/astro.ts:166-172 | localSiderealDegrees; Angles.LocalSiderealSpec states its range and its value modulo 360 |
| Angles.LocalHourAngleSpec | src/astro/astro.ts:178-182 | the hour angle lies in [0, 360) and is the local sidereal angle minus the right ascension, modulo 360 |
| Angles.LocalHourAngleDegrees | src/astro/astro.ts:178-182 | localHADegrees; Angles.LocalHourAngleSpec states its range and its value modulo 360 |
| Magnitude.MagnitudeAtFullPhase | src/astro/astro.ts:1195-1215 | at phase angle 0 each rule gives its constant plus the distance term |
| Magnitude.MagnitudeIncreasesWithDistance | src/astro/astro.ts:1122-1124 | for a fixed phase every rule grows one for one with the distance term |
| Magnitude.VenusBranchesMeet | src/astro/astro.ts:1209-1213 | the two Venus expressions meet to within 0.01 magnitudes at the 163.7 degree switch |
| Magnitude.MercuryPhaseFactor | src/astro/astro.ts:1196 | Mercury's phase polynomial in Horner form; Magnitude.MagnitudeAtFullPhase states it vanishes at phase 0 |
| Magnitude.VenusPhaseFactor | src/astro/astro.ts:1208-1213 | Venus's two phase polynomials switched at 163.7 degrees; Magnitude.VenusBranchesMeet states the branches meet there |
| Magnitude.ApparentMagnitude | src/astro/astro.ts:1122-1124 | calculateMagnitude of the default, Mercury and Venus rules (1195-1215); Magnitude.MagnitudeAtFullPhase and Magnitude.MagnitudeIncreasesWithDistance state its value at phase 0 and its growth with distance |
| StarColor.TableShape | src/astro/astro.ts:267-285 | the colour table has 145 entries, for 1000 K to 29800 K in steps of 200 K |
| StarColor.BlackbodyLookup | src/astro/astro.ts:267-285 | the colour table read by temperature key, None for a missing key; StarColor.BucketIsInTable states every bucket is a key |
| StarColor.BucketSpec | src/astro/astro.ts:288-294 | the bucket is the multiple of 200 at or below the temperature, clamped to [1000, 29800] |
| StarColor.Bucket | src/astro/astro.ts:288-294 | the temperature rounded down to 200 K and clamped; StarColor.BucketSpec states it |
| StarColor.BucketIsInTable | src/astro/astro.ts:288-296 | the bucket is always a key of the table |
| StarColor.ChannelsRecompose | src/astro/astro.ts:296-299 | the three masked and shifted channels are bytes that put back together give the table value |
| StarColor.Channel | src/astro/astro.ts:296-299 | one masked and shifted colour channel; StarColor.ChannelsRecompose states the three channels recompose the table value |
| StarColor.ExaggerateSpec | src/astro/astro.ts:300-306 | exaggeration keeps 255, keeps channels in [0, 255], is monotone, and is 0 exactly for channels up to 85 |
| StarColor.Exaggerate | src/astro/astro.ts:300-306 | the exaggeration 255 - 1.5 (255 - v) clamped at 0; StarColor.ExaggerateSpec states its range and monotonicity |
| StarColor.ColorInRange | src/astro/astro.ts:287-308 | every colour has its three channels in [0, 255] |
| StarColor.ColorIsConstantPerBucket | src/astro/astro.ts:288-296 | temperatures in one bucket share a colour, and temperatures beyond either end take the end colour |
| StarColor.SunColor | src/astro/astro.ts:287-308 | 5778 K gets the 5600 K entry 0xffeee3, exaggerated |
| StarColor.BlackbodyColor | src/astro/astro.ts:287-308 | blackbodyColor; StarColor.ColorInRange, StarColor.ColorIsConstantPerBucket and StarColor.SunColor state its range, its buckets and one value |
| Catalogue.VisitedCount | src/astro/astro.ts:358-361 | the scan visits the stars before the first one fainter than the limit |
| Catalogue.VisitedCountUnique | src/astro/astro.ts:358-361 | that stopping index is the only index with the two properties |
| Catalogue.SortedCatalogueVisitsAllBright | src/astro/astro.ts:349-361 | on a magnitude-sorted catalogue the visited stars are exactly those no fainter than the limit |
| Catalogue.PlanarDistance | src/astro/astro.ts:362-367 | the squared right-ascension difference plus the squared declination difference that nearestStar compares; Catalogue.NearestStar states the hit minimises it |
| Catalogue.StarColorOf | src/astro/astro.ts:326-329 | starColor, the black-body colour of ciToTemp of the colour index; Catalogue.NearestStar states the hit carries it |
| Catalogue.NearestStar | src/astro/astro.ts:354-381 | success exactly when some visited star is closer than 1e6; the hit is the first visited star at the least distance, with that star's name, proper name, constellation, magnitude, position and its black-body colour Catalogue.StarColorOf; otherwise the error nearestStar throws |
| SolarSystem.BodyNamesDistinct | src/astro/astro.ts:1366 | the nine bodies have distinct short names |
| SolarSystem.SunAloneLacksPhase | src/astro/astro.ts:1165-1179 | in the table only the Sun's entry has no phase; every other body carries its observed phase |
| SolarSystem.Calculate | src/astro/astro.ts:1125-1150 | calculate for one body: the observed position; the phase for every body but the Sun, whose override (1165-1179) never assigns it; magnitude -22 for the Sun, -10 for the Moon (1349-1350), or the planet's rule at the observed phase and distance; SolarSystem.TabulateBodies states each entry holds it |
| SolarSystem.TabulateBodies | src/astro/astro.ts:1367-1376 | one entry per body under its short name, in list order, holding the body and its calculated values |
| SolarSystem.CalcSolarSystem | src/astro/astro.ts:1367-1376 | nine entries keyed Sol, Mercury, Venus, Luna, Mars, Jupiter, Saturn, Uranus, Neptune in that order |
| SolarSystem.NearestSolarSystem | src/astro/astro.ts:1378-1402 | success exactly when some bright-enough entry is closer than 1e6; the hit is the first such entry in key order at the least distance |
| SolarSystem.ItemDistance | src/astro/astro.ts:1388-1392 | the planar distance of an entry that nearestSolarSystem compares; SolarSystem.NearestSolarSystem states the hit minimises it |
| Kepler.DispatchSpec | src/astro/astro.ts:637-645 | e < 1 goes to the elliptic solver, e > 1 to the hyperbolic one unchanged, and 1 to the hyperbolic one as 1.0000001 |
| Kepler.Dispatch | src/astro/astro.ts:637-645 | the solver and eccentricity chosen in FromKeplerian; Kepler.DispatchSpec states the choice |
| Kepler.ChosenEpochSpec | src/astro/astro.ts:489-493 | the time of periapsis is the epoch when it is present and truthy |
| Kepler.ChosenEpoch | src/astro/astro.ts:489-493 | the epoch the elapsed time is taken from; Kepler.ChosenEpochSpec states it |
| Kepler.Elapsed | src/astro/astro.ts:505 | the days from the chosen epoch (the hyperbolic copy is line 588), 0 in place of the NaN of a missing epoch; Kepler.OrbitalPlaneAt states that without an epoch the elliptic path is taken with mean anomaly 0 |
| Kepler.SemiMajorAxisFromPerihelion | src/astro/astro.ts:499-503 | from a perihelion distance q alone the axis satisfies q = a(1 - e) for an ellipse and q = a(e - 1) for a hyperbola |
| Kepler.EllipticSemiMajorAxis | src/astro/astro.ts:499-503 | the elliptic axis from the given axis or the perihelion distance; Kepler.SemiMajorAxisFromPerihelion states q = a(1 - e) |
| Kepler.HyperbolicSemiMajorAxis | src/astro/astro.ts:582-586 | the hyperbolic axis from a positive given axis or the perihelion distance; Kepler.SemiMajorAxisFromPerihelion states q = a(e - 1) |
| Kepler.SemiMajorAxis | src/astro/astro.ts:499-503 | the axis of the dispatched solver; Kepler.OrbitalPlaneAt requires it positive |
| Kepler.MeanMotion | src/astro/astro.ts:504 | the mean motion sqrt(GM/a^3) in degrees per day; Kepler.OrbitalPlaneAt uses it for the mean anomaly |
| Kepler.EllipticMeanAnomaly | src/astro/astro.ts:505-512 | the elliptic mean anomaly from the mean anomaly at the epoch, the time since periapsis, or 0; Kepler.OrbitalPlaneAt states the solver is run on it |
| Kepler.HyperbolicMeanAnomaly | src/astro/astro.ts:591-597 | the hyperbolic mean anomaly; Kepler.OrbitalPlaneAt states the solver is run on it |
| Kepler.ReduceMeanAnomaly | src/astro/astro.ts:513 | angles above 360 are reduced into [0, 360) modulo 360, others kept |
| Kepler.EllipticDenominatorPositive | src/astro/astro.ts:521 | the Newton denominator 1 - e cos u is positive for 0 <= e < 1 |
| Kepler.EllipticFixedPoint | src/astro/astro.ts:521-522 | a Newton step keeps u exactly when u solves u - e sin u = l |
| Kepler.EllipticStep | src/astro/astro.ts:521-522 | one Newton step for Kepler's equation; Kepler.EllipticDenominatorPositive and Kepler.EllipticFixedPoint state it is defined and fixes exactly the solutions |
| Kepler.EllipticIterate | src/astro/astro.ts:514-527 | the k-th Newton iterate; Kepler.SolveElliptic states the loop returns one of them |
| Kepler.SolveElliptic | src/astro/astro.ts:514-527 | the loop returns the k-th Newton iterate, 1 <= k <= 100002, every earlier update moved more than 1e-8, and the last one moved at most 1e-8 unless the cap was hit |
| Kepler.NormalizeEccentricAnomalySpec | src/astro/astro.ts:528 | a negative anomaly is moved up by exactly 2 pi; others are kept |
| Kepler.NormalizeEccentricAnomaly | src/astro/astro.ts:528 | a negative eccentric anomaly moved up one turn via degrees; Kepler.NormalizeEccentricAnomalySpec states it adds exactly 2 pi |
| Kepler.EllipticPlaneOnEllipse | src/astro/astro.ts:529-533 | the elliptic position lies on the ellipse of axis a and eccentricity e with the focus at the origin |
| Kepler.EllipticRadiusPositive | src/astro/astro.ts:532 | the elliptic radius is positive for a positive axis |
| Kepler.EllipticPlane | src/astro/astro.ts:529-533 | the elliptic orbital-plane position; Kepler.EllipticPlaneOnEllipse and Kepler.EllipticRadiusPositive state it lies on the ellipse with a positive radius |
| Kepler.HyperbolicDenominatorPositive | src/astro/astro.ts:606 | the Newton denominator e cosh u - 1 is positive for e > 1 |
| Kepler.HyperbolicFixedPoint | src/astro/astro.ts:606-607 | a Newton step keeps u exactly when u solves e sinh u - u = l |
| Kepler.HyperbolicStep | src/astro/astro.ts:606-607 | one Newton step for the hyperbolic Kepler equation; Kepler.HyperbolicDenominatorPositive and Kepler.HyperbolicFixedPoint state it is defined and fixes exactly the solutions |
| Kepler.HyperbolicIterate | src/astro/astro.ts:599-611 | the k-th Newton iterate; Kepler.SolveHyperbolic states the loop returns one of them |
| Kepler.SolveHyperbolic | src/astro/astro.ts:599-611 | as for the elliptic loop, with the post-incremented counter and tolerance 1e-5 |
| Kepler.EllipticOrbitPlane | src/astro/astro.ts:514-533 | the elliptic branch: its loop stops by Kepler.EllipticStopsAfter and the position is the ellipse point of the normalised final iterate |
| Kepler.HyperbolicOrbitPlane | src/astro/astro.ts:599-617 | the hyperbolic branch: its loop stops by Kepler.HyperbolicStopsAfter and the position is the hyperbola point of the final iterate |
| Kepler.HyperbolicPlaneOnHyperbola | src/astro/astro.ts:613-617 | the hyperbolic position lies on the hyperbola of axis a and eccentricity e, and its r field is negative |
| Kepler.HyperbolicPlane | src/astro/astro.ts:613-617 | the hyperbolic orbital-plane position; Kepler.HyperbolicPlaneOnHyperbola states it lies on the hyperbola with a negative r field |
| Kepler.OrbitalPlaneAt | src/astro/astro.ts:488-645 | the solver chosen by eccentricity, run on the reduced mean anomaly in radians, stops by its loop's rule (every earlier update moved more than the tolerance, the last at most the tolerance unless the cap was reached) and gives the orbital-plane position at that iterate; an orbit without an epoch takes the elliptic path from mean anomaly 0 |
| Series.AxisSumAppend | src/astro/astro.ts:423-428 | the sum over a concatenation of term lists is the sum of the sums |
| Series.Millennia | src/astro/astro.ts:420 | Julian millennia since J2000.0; Series.AxisSumAtEpoch states the series at t = 0 |
| Series.TermValue | src/astro/astro.ts:426 | one VSOP87 term t^power A cos(B + C t); Series.AxisSumAtEpoch states its value at t = 0 |
| Series.AxisSum | src/astro/astro.ts:423-428 | the sum of the terms on one axis; Series.AxisSumAppend and Series.AxisSumIgnoresOtherAxes state it |
| Series.AxisSumIgnoresOtherAxes | src/astro/astro.ts:425-427 | terms for other axes never change an axis's sum |
| Series.AxisSumAtEpoch | src/astro/astro.ts:420-426 | at J2000.0 (t = 0) an axis's sum is the sum of A cos B over its power-0 terms (Series.PowerZeroSum), and 0 when every power is positive |
| Series.PlanetPositionEcliptic | src/astro/astro.ts:416-434 | each coordinate is its axis's series sum in metres; terms with other axes do not affect the position |
| Series.EccentricityFactorIsPower | src/astro/astro.ts:748-754 | the eccentricity factor is E^abs(m) for abs(m) <= 2 |
| Series.EccentricityFactor | src/astro/astro.ts:748-755 | the factor E, E^2 or 1 by the multiple of the Sun's anomaly; Series.EccentricityFactorIsPower states it is E^abs(m) |
| Series.RowValue | src/astro/astro.ts:747-757 | one row's coefficient times the wave of its argument times the eccentricity factor; Series.RowWithoutSunAnomaly states a row without the Sun's anomaly is unscaled |
| Series.SigmaSpec | src/astro/astro.ts:742-757 | the sum of the row values; Series.SigmaLoop and Series.SigmaAppend state the loop computes it and it splits over tables |
| Series.SigmaLoop | src/astro/astro.ts:742-757 | the lunar sum loop computes the sum of the row values |
| Series.SigmaAppend | src/astro/astro.ts:742-757 | the sum over two tables in a row is the sum of the two sums |
| Series.RowWithoutSunAnomaly | src/astro/astro.ts:748-755 | a row without the Sun's anomaly is not scaled by E |
| QuatVec.VNegInvolution | astro/quatvec.ts:19-23 | negation undoes itself |
| QuatVec.VSubIsAddNeg | astro/quatvec.ts:30-38 | v - w is v + (-w) |
| QuatVec.VDotSymmetric | astro/quatvec.ts:39-41 | the dot product is symmetric |
| QuatVec.VLenSqIsDot | astro/quatvec.ts:5-7 | the squared length is the dot product with itself and is non-negative |
| QuatVec.VLenSq | astro/quatvec.ts:5-7 | vlensq; QuatVec.VLenSqIsDot states it is the dot product with itself and non-negative |
| QuatVec.VLength | astro/quatvec.ts:8-10 | vlength; QuatVec.VNormalizeUnit and QuatVec.ReflectedLength state its properties |
| QuatVec.VNeg | astro/quatvec.ts:19-23 | vneg; QuatVec.VNegInvolution states it undoes itself |
| QuatVec.VAdd | astro/quatvec.ts:24-28 | vadd; QuatVec.VSubIsAddNeg states its relation to vsub |
| QuatVec.VSub | astro/quatvec.ts:30-38 | vsub; QuatVec.VSubIsAddNeg states it adds the negation |
| QuatVec.VDot | astro/quatvec.ts:39-41 | vdot; QuatVec.VDotSymmetric states it is symmetric |
| QuatVec.VCross | astro/quatvec.ts:43-49 | vcross; QuatVec.VCrossAnticommutative and QuatVec.VCrossOrthogonal state it |
| QuatVec.VCrossAnticommutative | astro/quatvec.ts:43-49 | w x v = -(v x w) |
| QuatVec.VCrossOrthogonal | astro/quatvec.ts:43-49 | v x w is orthogonal to v and to w |
| QuatVec.VNormalizeDefined | astro/quatvec.ts:12-17 | a vector of positive length can be normalised |
| QuatVec.VNormalizeUnit | astro/quatvec.ts:12-17 | a normalised vector has length 1 and, scaled back by the length, gives the input |
| QuatVec.VNormalizeOfUnit | astro/quatvec.ts:12-17 | normalising a unit vector leaves it unchanged |
| QuatVec.VNormalize | astro/quatvec.ts:12-17 | vnormalize, None for a zero length; QuatVec.VNormalizeDefined, QuatVec.VNormalizeUnit and QuatVec.VNormalizeOfUnit state it |
| QuatVec.VMidpoint | astro/quatvec.ts:51-58 | vmidpoint, the normalised average; QuatVec.MidpointHalfTurn states the half-turn about it takes one direction to the other |
| QuatVec.QuatConjInvolution | astro/quatvec.ts:86-89 | conjugation undoes itself |
| QuatVec.QuatMultConj | astro/quatvec.ts:91-99 | q q* is the real quaternion of q's squared length |
| QuatVec.QuatFromAxis180 | astro/quatvec.ts:76-84 | quat_from_axis_180, the axis as a quaternion with w = 0; QuatVec.Rotate180Formula states the rotation built from it |
| QuatVec.QuatConj | astro/quatvec.ts:86-89 | quat_conj; QuatVec.QuatConjInvolution states it undoes itself |
| QuatVec.QuatMult | astro/quatvec.ts:91-99 | quat_mult, the Hamilton product; QuatVec.QuatMultConj states q q* is its squared length |
| QuatVec.Rotate180Formula | astro/quatvec.ts:113-123 | the half-turn product is a pure quaternion with vector part 2(a.p)a - abs(a)^2 p |
| QuatVec.HalfTurnPreservesLength | astro/quatvec.ts:113-123 | about a unit axis the half-turn keeps the length |
| QuatVec.HalfTurnInvolution | astro/quatvec.ts:113-123 | about a unit axis two half-turns give the point back |
| QuatVec.HalfTurnFixesAxis | astro/quatvec.ts:113-123 | the half-turn about a unit axis fixes the axis |
| QuatVec.Rotate180Properties | astro/quatvec.ts:113-123 | for a unit axis the rotation is pure, keeps lengths, fixes the axis and undoes itself |
| QuatVec.Rotate180 | astro/quatvec.ts:113-123 | rotate_vertex_position_180; QuatVec.Rotate180Formula and QuatVec.Rotate180Properties state it is the half-turn |
| QuatVec.HalfTurnScaledAxis | astro/quatvec.ts:113-123 | scaling the axis by k scales the result by k^2 |
| QuatVec.ReflectedGuardFails | astro/quatvec.ts:126-130 | after reflection the guard fails, so the recursion is at most one deep |
| QuatVec.ReflectedLength | astro/quatvec.ts:129 | reflection through the origin keeps lengths |
| QuatVec.MidpointHalfTurn | astro/quatvec.ts:51-58 | the half-turn about the midpoint of two non-opposite unit directions takes one to the other |
| QuatVec.MoveCarriesV1OntoV2 | astro/quatvec.ts:125-135 | for unit v1 and v2, moving v1 itself gives v2, reflected or not |
| QuatVec.MoveUnreflected | astro/quatvec.ts:131-134 | without reflection the two half-turns take v1 onto v2 |
| QuatVec.MovePreservesLength | astro/quatvec.ts:125-135 | when v2 has length 1 the result is pure and as long as v3 |
| QuatVec.MoveV3FromV1ToV2 | astro/quatvec.ts:125-135 | move_v3_from_v1_to_v2, None for a zero normalisation; QuatVec.MoveCarriesV1OntoV2, QuatVec.MoveUnreflected and QuatVec.MovePreservesLength state it |
| Constellations.LastWith | astro/constellations.ts:5-12 | a feature list determines a field for an id exactly when the id occurs, and the value comes from its last occurrence |
| Constellations.MergeStep | astro/constellations.ts:5-12 | one more feature merges into the table as the create-or-update step of that feature |
| Constellations.Fresh | astro/constellations.ts:8 | the object created for an unseen id, with only its id set; Constellations.ConstellationTable.MergeBoundaries states unseen ids are created |
| Constellations.Merge | astro/constellations.ts:5-12 | the table after one pass, from the last feature per id; Constellations.MergeStep and Constellations.LastWith state it |
| Constellations.ConstellationTable.constructor | astro/constellations.ts:2 | the table starts empty |
| Constellations.ConstellationTable.MergeBoundaries | astro/constellations.ts:5-12 | after the pass each listed id holds its last boundary ring, created if absent, with other entries untouched |
| Constellations.ConstellationTable.MergeLines | astro/constellations.ts:13-20 | the same for figure lines |
| Constellations.ConstellationTable.MergeLabels | astro/constellations.ts:21-28 | the same for label positions |
| Constellations.ConstellationTable.GetConstellationData | astro/constellations.ts:3-29 | the table is the three merges in order and every entry's id equals its key |
| Constellations.SetBoundaryOverwrites | astro/constellations.ts:9 | setting the boundary overwrites only that field and keeps the id |
| Constellations.SetBoundary | astro/constellations.ts:9 | stores the first ring of the boundary polygon; Constellations.SetBoundaryOverwrites states it |
| Constellations.SetLinesOverwrites | astro/constellations.ts:17 | setting the lines overwrites only that field and keeps the id |
| Constellations.SetLines | astro/constellations.ts:17 | stores the figure lines; Constellations.SetLinesOverwrites states it |
| Constellations.SetCoordsOverwrites | astro/constellations.ts:25 | setting the coordinates overwrites only that field and keeps the id |
| Constellations.SetCoords | astro/constellations.ts:25 | stores the label position; Constellations.SetCoordsOverwrites states it |
| Constellations.AllKeys | astro/constellations.ts:3-29 | the keys afterwards are the old keys plus every id in the three lists |
| Constellations.All | astro/constellations.ts:3-29 | the table after the three passes; Constellations.AllKeys, Constellations.AllAt, Constellations.AllKeepsIds and Constellations.AllIdempotent state it |
| Constellations.AllAt | astro/constellations.ts:3-29 | each entry afterwards has each field from the last feature naming its id, or its old value |
| Constellations.AllKeepsIds | astro/constellations.ts:8 | every entry's id equals its key afterwards, given it did before |
| Constellations.AllIdempotent | astro/constellations.ts:31 | running getConstellationData twice gives the same table as once |
| BabyLife.Assign | src/babylife/babylife.ts:144-147 | exactly the given keys are overwritten in both dictionaries |
| BabyLife.AssignOne | src/babylife/babylife.ts:144-147 | assigning one key is a map update of both dictionaries |
| BabyLife.Filter | src/babylife/babylife.ts:98-100 | the kept elements are exactly those the predicate accepts |
| BabyLife.FilterAll | src/babylife/babylife.ts:117 | an always-true predicate keeps the whole list |
| BabyLife.BabyScene.constructor | src/babylife/babylife.ts:85-90 | a scene starts with no entities, the given parameters and no changes |
| BabyLife.BabyScene.NewEntity | src/babylife/babylife.ts:31-47 | a new entity has no children, no dependencies and no-op callbacks, and is a child of its parent or a root of the scene |
| BabyLife.BabyScene.SetInit | src/babylife/babylife.ts:68-70 | only the entity's init callback changes |
| BabyLife.BabyScene.SetUpdate | src/babylife/babylife.ts:71-73 | only the entity's update callback changes |
| BabyLife.BabyScene.DependsOn | src/babylife/babylife.ts:74-78 | every listed name is added to the entity's dependencies, and repeating the call changes nothing |
| BabyLife.BabyScene.ChangeState | src/babylife/babylife.ts:144-147 | both dictionaries take the new values of exactly the given keys |
| BabyLife.BabyScene.Reset | src/babylife/babylife.ts:154-156 | no parameter counts as changed; values stay |
| BabyLife.BabyScene.HasChanged | src/babylife/babylife.ts:157-163 | true exactly when the name is among the changed parameters |
| BabyLife.BabyScene.ValueOf | src/babylife/babylife.ts:164-166 | the parameter's value, or undefined when absent |
| BabyLife.BabyScene.ParentFirstTree | src/babylife/babylife.ts:58-67 | the loop computes the entity followed by each child's parent-first list |
| BabyLife.BabyScene.ChildFirstTree | src/babylife/babylife.ts:48-57 | the loop computes each child's child-first list followed by the entity |
| BabyLife.BabyScene.ParentFirst | src/babylife/babylife.ts:58-67 | parentFirstTree's list, the entity then each child's list; BabyLife.BabyScene.ParentFirstTree and BabyLife.BabyScene.SameNodes state it |
| BabyLife.BabyScene.ChildFirst | src/babylife/babylife.ts:48-57 | childFirstTree's list, each child's list then the entity; BabyLife.BabyScene.ChildFirstTree and BabyLife.BabyScene.SameNodes state it |
| BabyLife.BabyScene.EntitiesParentFirstWhere | src/babylife/babylife.ts:94-104 | the accepted entities of the parent-first traversal of all roots, in order |
| BabyLife.BabyScene.EntitiesChildFirstWhere | src/babylife/babylife.ts:105-115 | the accepted entities of the child-first traversal of all roots, in order |
| BabyLife.BabyScene.RunCallbacks | src/babylife/babylife.ts:117-122 | running callbacks in order gives the state of applying each one's changes in turn |
| BabyLife.BabyScene.Init | src/babylife/babylife.ts:116-123 | every entity's init runs parent-first, then every update runs child-first |
| BabyLife.BabyScene.Update | src/babylife/babylife.ts:124-143 | exactly the entities depending on a changed parameter update, child-first, and then no parameter counts as changed |
| BabyLife.BabyScene.TreeBounds | src/babylife/babylife.ts:94-115 | the traversals list only entities of the scene |
| BabyLife.BabyScene.SameNodes | src/babylife/babylife.ts:48-67 | the parent-first list starts and the child-first list ends with the entity, and both list the same entities |
| BabyLife.BabyScene.InForest | src/babylife/babylife.ts:61-65 | a node of one child's tree is in the traversal of the children |
| BabyLife.BabyScene.FromForest | src/babylife/babylife.ts:61-65 | a node of the children's traversal comes from one child's tree |
| BabyLife.BabyScene.ChildInTree | src/babylife/babylife.ts:58-67 | a child of a node in a tree is in that tree |
| BabyLife.BabyScene.EveryEntityListed | src/babylife/babylife.ts:116-123 | every entity of the scene is reached by both traversals |
| BabyLife.BabyScene.UpdateSelects | src/babylife/babylife.ts:125-138 | an entity is updated exactly when one of its dependencies changed |
| BabyLife.Touched | src/babylife/babylife.ts:126-137 | the test that one of an entity's dependencies changed; BabyLife.BabyScene.UpdateSelects states update selects exactly those entities |
| Arcs.RaCirclePoints | src/babysky/arcs.ts:36-41 | nineteen pairs at the given right ascension, declination -90 to 90 in steps of 10; the global build's copy is babysky/arcs.ts:33-38 |
| Arcs.DecCirclePoints | src/babysky/arcs.ts:45-51 | 360 pairs at the given declination, right ascension 0 to 359; the global build's copy is babysky/arcs.ts:42-48 |
| Arcs.CirclesAreMonotone | src/babysky/arcs.ts:36-51 | a meridian runs strictly northwards from pole to pole and a parallel strictly eastwards |
| Arcs.RaGrid | src/babysky/arcs.ts:56-62 | twelve meridians at multiples of 30 degrees; the global build's copy is babysky/arcs.ts:53-59 |
| Arcs.DecGrid | src/babysky/arcs.ts:63-69 | nineteen parallels from -90 to 90 degrees; the global build's copy is babysky/arcs.ts:60-66 |
| Arcs.ArcPointOnSphere | src/babysky/arcs.ts:10-13 | every drawn point lies on the sphere of the given radius |
| Arcs.RhoThetaPhiToXYZ | src/astro/astro.ts:185-190 | rhoThetaPhiToXYZ, degrees to a point on the sphere of radius rho; Arcs.ArcPointOnSphere states the point lies on it |
| Arcs.ArcPoint | src/babysky/arcs.ts:10-13 | the point arcThrough draws for one pair, z mirrored; Arcs.ArcPointOnSphere states it lies on the sphere |
| Arcs.ArcPoints | src/babysky/arcs.ts:9-19 | one point per pair, each on the sphere; the global build's copy is babysky/arcs.ts:6-16 |
| Arcs.ArcSystemPoints | src/babysky/arcs.ts:20-35 | one line per pair list, each as long as its list; the global build's copy is babysky/arcs.ts:17-32 |
| Arcs.ArcPointsPointwise | src/babysky/arcs.ts:10-13 | point i comes from pair i |
| Arcs.ArcSystemPointwise | src/babysky/arcs.ts:27-29 | line i is the conversion of pair list i |
| ProgramClock.SpeedFactorSigned | src/babysky/babysky.ts:137-140 | speed 0 stops the clock and index -s runs it backwards as fast as s forwards; the global build's copy is babysky/babysky.ts:116-119 |
| ProgramClock.SpeedFactor | src/babysky/babysky.ts:137-140 | speedFactor for a speed index; ProgramClock.SpeedFactorSigned states stop and reverse |
| ProgramClock.WholeSeconds | src/babysky/babysky.ts:169-170 | the elapsed time is cut to a whole number of seconds, dropping less than a second toward zero; the global build's copy is babysky/babysky.ts:148-149 |
| ProgramClock.RemDropped | src/babysky/babysky.ts:170 | what elapsed % 1000 removes has the sign of elapsed, is under a second, and leaves whole seconds |
| ProgramClock.ProgramTimeAtStart | src/babysky/babysky.ts:167-174 | within the first second after a rebase the program time is the initial time |
| ProgramClock.ProgramTimeAt | src/babysky/babysky.ts:167-174 | the program time at a wall-clock instant; ProgramClock.ProgramTimeAtStart and ProgramClock.ProgramTime.SetProgramTime state it |
| ProgramClock.FasterCycles | src/babysky/babysky.ts:154-159 | from 1..9, k presses give (i - 1 + k) % 9 + 1, so the index stays in 1..9 and returns after nine presses; the global build's copy is babysky/babysky.ts:133-138 |
| ProgramClock.NextIncrement | src/babysky/babysky.ts:154-159 | the index after fasterIncrement, 9 wrapping to 1; ProgramClock.FasterCycles states presses cycle through 1..9 |
| ProgramClock.WholeStepRestores | src/babysky/babysky.ts:148-153 | an increment of whole milliseconds steps forwards by exactly that and back to the start |
| ProgramClock.StepForward | src/babysky/babysky.ts:148-150 | one increment later, truncated to ms; ProgramClock.WholeStepRestores states a whole-ms step is undone by StepBackward |
| ProgramClock.StepBackward | src/babysky/babysky.ts:151-153 | one increment earlier, truncated to ms; ProgramClock.WholeStepRestores states it |
| ProgramClock.ModuleBuildStepsRestore | src/babysky/babysky.ts:102-112 | with this build's table, forward then backward restores the initial time at every index |
| ProgramClock.GlobalBuildStepLosesMs | babysky/babysky.ts:86-132 | with the global build's table, forward then backward from 1000 ms at index 5 gives 999 ms |
| ProgramClock.ModuleBuildSiderealYear | src/babysky/babysky.ts:111 | "1sidYr" is between 365 and 366 solar days and 366.25 to 366.26 sidereal days, longer than "1mth" |
| ProgramClock.GlobalBuildSiderealYearIsAMonth | babysky/babysky.ts:89-90 | the global build's "1sidYr" is thirty sidereal days, shorter than its "1mth" |
| ProgramClock.ProgramTime.constructor | src/babysky/babysky.ts:91-121 | the clock starts at the start date (or now) shifted by the offsets, at increment 3, with the given speed; the global build's copy is babysky/babysky.ts:80-100 |
| ProgramClock.ProgramTime.SetProgramTime | src/babysky/babysky.ts:167-174 | the current time is the initial time plus the speed factor times the whole seconds elapsed, truncated to ms; the global build's copy is babysky/babysky.ts:146-153 |
| ProgramClock.ProgramTime.SetSpeed | src/babysky/babysky.ts:122-130 | the same speed changes nothing; another speed rebases the start at the program time reached, and the increment index is kept; the global build's copy is babysky/babysky.ts:101-109 |
| ProgramClock.ProgramTime.SetSpeedFromIncrement | src/babysky/babysky.ts:131-133 | the speed becomes the selected increment; the global build's copy is babysky/babysky.ts:110-112 |
| ProgramClock.ProgramTime.StopSpeed | src/babysky/babysky.ts:134-136 | the speed becomes 0; the global build's copy is babysky/babysky.ts:113-115 |
| ProgramClock.ProgramTime.SetTimeIncrement | src/babysky/babysky.ts:141-147 | only 1..9 select an increment; any other value leaves all state unchanged; the global build's copy is babysky/babysky.ts:120-126 |
| ProgramClock.ProgramTime.ApplyTimeIncrementForward | src/babysky/babysky.ts:148-150 | the initial time moves one increment later, truncated to ms; nothing else changes; the global build's copy is babysky/babysky.ts:127-129 |
| ProgramClock.ProgramTime.ApplyTimeIncrementBackward | src/babysky/babysky.ts:151-153 | the initial time moves one increment earlier, truncated to ms; nothing else changes; the global build's copy is babysky/babysky.ts:130-132 |
| ProgramClock.ProgramTime.FasterIncrement | src/babysky/babysky.ts:154-159 | the index moves to the next one, 9 wrapping to 1; nothing else changes; the global build's copy is babysky/babysky.ts:133-138 |
| ProgramClock.ProgramTime.CurrentSpeedFactor | src/babysky/babysky.ts:137-140 | speedFactor of the clock's current speed; ProgramClock.SpeedFactorSigned states its sign |
| ProgramClock.ProgramTime.TimeIncrement | src/babysky/babysky.ts:160-162 | timeIncrement, the selected increment in seconds |
| ProgramClock.ProgramTime.TimeIncrementText | src/babysky/babysky.ts:163-165 | timeIncrementText, the label of the selected increment |
| Controls.Clamp | src/babysky/babysky.ts:910-916 | the clamped value lies in the interval, is the input when inside, and is the point of the interval nearest the input |
| Controls.LongitudeAdjusted | src/babysky/babysky.ts:917-923 | the result is congruent to lon + level modulo 360, at most one turn away, unchanged inside [0, 360], and in [0, 360] for a start in [0, 360] and a level of at most 360 |
| Controls.NextLighting | src/babysky/babysky.ts:896-909 | the toggle never shows daylight without the floor; the floor shows unless both were shown, and daylight shows exactly after floor only |
| Controls.LightingCycle | src/babysky/babysky.ts:896-909 | the toggle cycles through three states and returns after three presses; daylight without the floor goes to floor only; the global build's copy is babysky/babysky.ts:873-886 |
| Controls.ChangeFloorAndDaylightVisibility | src/babysky/babysky.ts:896-909 | both flags are written with the next pair of the cycle; the global build's copy is babysky/babysky.ts:873-886 |
| Controls.LatitudeAdjust | src/babysky/babysky.ts:910-916 | the latitude moves by the level and is clamped to [-90, 90]; the global build's copy is babysky/babysky.ts:887-893 |
| Controls.LongitudeAdjust | src/babysky/babysky.ts:917-923 | the longitude moves by the level, wrapped by one turn; the global build's copy is babysky/babysky.ts:894-900 |
| Controls.PlanetSizeAdjust | src/babysky/babysky.ts:927-932 | the planet multiplier is scaled and clamped to [1, 1000]; the global build's copy is babysky/babysky.ts:904-909 |
| Controls.TimeIncrementAdjust | src/babysky/babysky.ts:933-936 | the clock moves to the next increment and the scene records it; the global build's copy is babysky/babysky.ts:910-913 |
| Controls.FirstRepeatAfterStartDelay | src/babysky/babysky.ts:1002-1021 | after a press the button is due exactly when 400 ms have passed (a press at time 0 never repeats) |
| Controls.RepeatSpacing | src/babysky/babysky.ts:1015-1029 | after a repeat the button is due again exactly when still past the start delay and more than 100 ms later |
| Controls.Due | src/babysky/babysky.ts:1018-1021 | the auto-repeat test; Controls.FirstRepeatAfterStartDelay and Controls.RepeatSpacing state when it holds |
| Controls.Pressed | src/babysky/babysky.ts:1004-1005 | a button record after a press; Controls.FirstRepeatAfterStartDelay states its first repeat |
| Controls.Repeated | src/babysky/babysky.ts:1023-1024 | a button record after an auto-repeat tick; Controls.RepeatSpacing states the next repeat |
| Controls.ReleaseStopsRepeats | src/babysky/babysky.ts:1009-1011 | a released button never repeats |
| Controls.Released | src/babysky/babysky.ts:1011 | a button record after a release; Controls.ReleaseStopsRepeats states it never repeats |
| Controls.FirstUnassignedDue | src/babysky/babysky.ts:1017-1027 | the first due button without an action, where the pass throws, or the number of buttons |
| Controls.DueIndices | src/babysky/babysky.ts:1017-1027 | the due buttons below an index, in increasing order |
| Controls.InteractionHandler.constructor | src/babysky/babysky.ts:943-948 | four buttons, unpressed and unassigned |
| Controls.InteractionHandler.SetButtonAction | src/babysky/babysky.ts:970-974 | only that button gets an action |
| Controls.InteractionHandler.NotifyRepeatableButton | src/babysky/babysky.ts:999-1013 | a press stamps both times and fires the action once if assigned; a release clears the press time; the global build's copy is babysky/babysky.ts:976-990 |
| Controls.InteractionHandler.HandleAutoRepeat | src/babysky/babysky.ts:1015-1029 | every due button up to the first unassigned one is stamped and fires, in order; the pass throws there and leaves the rest alone; the global build's copy is babysky/babysky.ts:992-1006 |

## Left out

- Rendering, GUI, XR controller wiring, keyboard dispatch and help panels: they are calls into Babylon.js, which is not part of this model. This includes `arcThrough`'s mesh creation, `raCircle`/`decCircle`, `createTextAtRaDec` and `starMagnitudeAdjust`. Also not modelled: the key dispatch that calls `setTimeIncrement` and the forward/backward steps, which differs between the two builds for 'u'/'U'.
- Wall-clock reads (`new Date()`) are parameters. `SetSpeed` takes its three readings separately, as `setSpeed` makes three calls.
- `currentAstroTime` and the `AstroTime` class are not modelled; a program time is a millisecond count. The same goes for the `getCurrentProgramTime*` accessors and `currentState`/`changedState`.
- Floating-point rounding, NaN, Infinity and -0 are not modelled: numbers are exact reals.
- Js.DateFromMs: does not model TimeClip's limit of 8.64e15 ms either side of the Unix epoch, beyond which `new Date` gives an invalid date (NaN); program times stay far inside it.
- `Math.pow(1.2, level)` is a parameter of `Controls.PlanetSizeAdjust`. `sin`, `cos`, `sinh`, `cosh`, `sqrt` and pi form a `MathLib` parameter; each proof assumes only the identities it names.
- The GMST polynomial and nutation, `NutationAndObliquity`, `SunPosition`, the Moon's position and phase, `EclipticToEquatorial` apart from its right-ascension wrap, `raDecToAltAzandXYZ`, `XYZToRaDec`, `litPointRotationCalc`, `rhoThetaPhiToXYZ`'s accuracy, `ciToTemp`, `quat_length`, and `quat_from_axis_angle` with its caller `rotate_vertex_position` (which converts degrees with 3.14159): they are numerical approximations. The model makes no claim about their accuracy.
- The Moon's additive terms in `SigmaL`/`SigmaB` (A1, A2, A3 and L1 terms) are not modelled; only the table sums are.
- `ParabolicOrbit` (unused; `FromKeplerian` replaces e = 1 by 1.0000001) and `ecliptic_rectangular`: the latter is a fixed rotation of the plane position.
- Kepler.OrbitalPlaneAt: requires an eccentricity above -1, a positive axis, and an epoch for a hyperbolic orbit. At e <= -1 the elliptic Newton denominator 1 - e cos u can be 0; a hyperbolic orbit without an epoch has a NaN elapsed time; with no axis the mean motion divides by zero. An elliptic orbit without an epoch stays finite (mean anomaly 0) and is modelled.
- Catalogue.NearestStar: the pointed direction is given as right ascension and declination; its conversion from a controller ray is `XYZToRaDec`, which is not part of this model. The colour-index-to-temperature conversion `ciToTemp` is a parameter: its floating-point formula is not part of this model.
- The hygdata star catalogue, the planet term tables and the constellation data files are not part of this model; they are inputs.
- BabyLife.BabyScene: entities are handles into arrays held by the scene. Object identity and calling `addChild`/`add` directly with other arguments are not modelled, and callbacks are modelled only by the parameter changes they request.
- `Object.keys` puts array-index-like keys first. The model keeps insertion order, which is what the body and constellation ids (none numeric) get.
- QuatVec.VNormalize: a zero vector yields None instead of the NaN components of `0/0`.
- ProgramClock.ProgramTime.constructor: requires a speed index in -9..9. Other indices read an undefined table entry and give NaN, which is not modelled.
- Controls.LatitudeAdjust, Controls.LongitudeAdjust, Controls.PlanetSizeAdjust: require the parameter to be present and numeric, as the scene's initial parameters make it. Otherwise the handlers compute with undefined, which is not modelled.
- Controls.InteractionHandler: buttons are addressed by index 0..3 rather than by label, and help texts are not modelled.

## Findings

| source | as written | input that shows it | evidently intended | confidence | as-written member | corrected member |
|---|---|---|---|---|---|---|
| src/astro/astro.ts:78 | the last term of the -500..500 Delta T polynomial is 0.0090316521 u^5, repeating the power of the term before | year 500 December to year 501 January: Delta T jumps by more than 100 s | 0.0090316521 u^6, as in the published expression; then the jump is under 2 s | high; not executed | AstroTime.DeltaTJumpsAtYear500AsWritten | AstroTime.DeltaTCorrectedContinuousAtEra1Ends |
| babysky/babysky.ts:87 | the sidereal-day increment 3600*24*365.25/366.25 is not a whole number of milliseconds, and `new Date` truncates | initial time 1000 ms, increment 5, step forward then backward: 999 ms | a step backward undoes a step forward; the src build's 86164.1 s does | high; not executed | ProgramClock.GlobalBuildStepLosesMs | ProgramClock.ModuleBuildStepsRestore |
| babysky/babysky.ts:90 | the increment labelled "1sidYr" is 3600*24*30*365.25/366.25 s, thirty sidereal days | increment 8 steps by about 29.9 days, less than increment 7 ("1mth") | a sidereal year, 31558149.504 s, as in the src build | high; not executed | ProgramClock.GlobalBuildSiderealYearIsAMonth | ProgramClock.ModuleBuildSiderealYear |
