/** The pointer search over the star catalogue (`nearestStar`). The catalogue is ordered by
    magnitude, brightest first, so the scan stops at the first star fainter than the
    display limit. The pointed-at direction is given in right ascension and declination
    (its conversion from a controller ray is not part of this model). The colour-index to
    temperature conversion `ciToTemp` is a parameter, as its numerics are not modelled. */
module Catalogue {
  import opened Js
  import StarColor

  /** The catalogue fields the search reads. */
  datatype Star = Star(name: string, proper: string, constellation: string, ra: real, dec: real, mag: real,
                       ci: real)

  /** What `nearestStar` returns, with the index of the star it describes. */
  datatype StarHit = StarHit(index: nat, name: string, proper: string, constellation: string,
                             mag: real, color: StarColor.Rgb, ra: real, dec: real, distance: real)

  /** `starColor`: the black-body colour of the star's colour-index temperature. */
  function StarColorOf(ciToTemp: real -> real, s: Star): StarColor.Rgb
  {
    StarColor.BlackbodyColor(ciToTemp(s.ci))
  }

  /** No candidate was found: the index stayed -1 and reading its fields throws. */
  datatype SearchError = NothingWithinLimit

  /** The search's starting distance; only candidates strictly closer can be chosen. */
  const InitialDistance: real := 1000000.0

  /** Squared difference in right ascension plus squared difference in declination, in
      degrees squared (a planar measure, not the angle on the sphere). */
  function PlanarDistance(ra: real, dec: real, pointRa: real, pointDec: real): real
  {
    (ra - pointRa) * (ra - pointRa) + (dec - pointDec) * (dec - pointDec)
  }

  function StarDistance(s: Star, pointRa: real, pointDec: real): real
  {
    PlanarDistance(s.ra, s.dec, pointRa, pointDec)
  }

  /** How many stars the scan visits: the index of the first star fainter than `maxMag`, or
      the whole catalogue when there is none. */
  function VisitedCount(stars: seq<Star>, maxMag: real): (n: nat)
    ensures n <= |stars|
    ensures forall j :: 0 <= j < n ==> stars[j].mag <= maxMag
    ensures n < |stars| ==> stars[n].mag > maxMag
  {
    if |stars| == 0 || stars[0].mag > maxMag then 0 else 1 + VisitedCount(stars[1..], maxMag)
  }

  /** The first-fainter index is the only index with those two properties. */
  lemma VisitedCountUnique(stars: seq<Star>, maxMag: real, i: nat)
    requires i <= |stars|
    requires forall j :: 0 <= j < i ==> stars[j].mag <= maxMag
    requires i < |stars| ==> stars[i].mag > maxMag
    ensures VisitedCount(stars, maxMag) == i
  {
  }

  /** On a catalogue sorted by magnitude the visited stars are exactly those no fainter
      than the limit, so stopping early skips no candidate. */
  lemma SortedCatalogueVisitsAllBright(stars: seq<Star>, maxMag: real)
    requires forall i, j :: 0 <= i < j < |stars| ==> stars[i].mag <= stars[j].mag
    ensures forall j :: 0 <= j < |stars| ==> (j < VisitedCount(stars, maxMag) <==> stars[j].mag <= maxMag)
  {
  }

  /** `nearestStar`: scans in index order until the first star fainter than `maxMag` and
      returns the first star of the visited prefix that is strictly closest and closer than
      the initial distance; fails when there is none. */
  method NearestStar(stars: seq<Star>, pointRa: real, pointDec: real, maxMag: real, ciToTemp: real -> real)
    returns (r: Result<StarHit, SearchError>)
    ensures var n := VisitedCount(stars, maxMag);
      r.Ok? <==> exists j :: 0 <= j < n && StarDistance(stars[j], pointRa, pointDec) < InitialDistance
    ensures r.Ok? ==>
      var n, h := VisitedCount(stars, maxMag), r.value;
      && h.index < n
      && var s := stars[h.index];
      && h == StarHit(h.index, s.name, s.proper, s.constellation, s.mag, StarColorOf(ciToTemp, s), s.ra, s.dec,
                      StarDistance(s, pointRa, pointDec))
      && (forall j :: 0 <= j < n ==> StarDistance(stars[j], pointRa, pointDec) >= h.distance)
      && (forall j :: 0 <= j < h.index ==> StarDistance(stars[j], pointRa, pointDec) > h.distance)
  {
    var closestIndex := -1;
    var closestDistance := InitialDistance;
    var i := 0;
    while i < |stars|
      invariant 0 <= i <= |stars|
      invariant forall j :: 0 <= j < i ==> stars[j].mag <= maxMag
      invariant -1 <= closestIndex < i
      invariant closestIndex == -1 ==> closestDistance == InitialDistance
      invariant closestIndex >= 0 ==> closestDistance == StarDistance(stars[closestIndex], pointRa, pointDec) < InitialDistance
      invariant forall j :: 0 <= j < i ==> StarDistance(stars[j], pointRa, pointDec) >= closestDistance
      invariant forall j :: 0 <= j < closestIndex ==> StarDistance(stars[j], pointRa, pointDec) > closestDistance
    {
      var star := stars[i];
      if star.mag > maxMag {
        break;
      }
      var thisDiff := PlanarDistance(star.ra, star.dec, pointRa, pointDec);
      if thisDiff < closestDistance {
        closestDistance := thisDiff;
        closestIndex := i;
      }
      i := i + 1;
    }
    VisitedCountUnique(stars, maxMag, i);
    if closestIndex == -1 {
      r := Err(NothingWithinLimit);
    } else {
      var s := stars[closestIndex];
      var color := StarColorOf(ciToTemp, s);
      r := Ok(StarHit(closestIndex, s.name, s.proper, s.constellation, s.mag, color, s.ra, s.dec, closestDistance));
    }
  }
}
