/** Bounding-box geometry and the constants that drive radius escalation.

    Arithmetic is over `real`. The cosine of the centre's latitude is not
    computed here: callers pass it as `cosLat`, the value `Math.cos(lat * PI
    / 180)` takes, which is positive for every latitude strictly between -90
    and 90 degrees (and, in double precision, at the poles too). Haversine
    distance is not computed either: the ranking code takes it as a function
    parameter of type `DistanceFn`. */
module Geo {
  import opened Domain

  const EARTH_RADIUS_KM: real := 6371.0

  /** `Math.PI`, as the shortest decimal that rounds to that double (the
      double itself is slightly larger). */
  const PI: real := 3.141592653589793

  const DEFAULT_RADIUS_KM: real := 2.0

  /** The radii (km) tried in turn until enough spots come back. */
  const RADIUS_STEPS: seq<real> := [2.0, 3.0, 5.0, 10.0]

  /** The fewest spots that end the escalation early. */
  const MIN_SPOTS_THRESHOLD: nat := 5

  /** The fallback position (central Sendai). */
  const DEFAULT_LOCATION: Coordinate := Coordinate(38.2682, 140.8694)

  /** `calculateDistance(lat1, lng1, lat2, lng2)` in km. */
  type DistanceFn = (real, real, real, real) -> real

  datatype BoundingBox = BoundingBox(minLat: real, maxLat: real, minLng: real, maxLng: real)

  /** Half the latitude span of a box of the given radius, in degrees. */
  function LatDeltaDeg(radiusKm: real): real
  {
    (radiusKm / EARTH_RADIUS_KM * 180.0) / PI
  }

  /** Half the longitude span, in degrees, at a latitude whose cosine is `cosLat`. */
  function LngDeltaDeg(radiusKm: real, cosLat: real): real
    requires cosLat > 0.0
  {
    (radiusKm / (EARTH_RADIUS_KM * cosLat) * 180.0) / PI
  }

  /** `getBoundingBox(lat, lng, radiusKm)`. */
  function GetBoundingBox(lat: real, lng: real, radiusKm: real, cosLat: real): (box: BoundingBox)
    requires cosLat > 0.0
    // symmetric about the centre
    ensures lat - box.minLat == box.maxLat - lat
    ensures lng - box.minLng == box.maxLng - lng
    // a positive radius gives a box that strictly contains the centre
    ensures radiusKm > 0.0 ==> box.minLat < lat < box.maxLat && box.minLng < lng < box.maxLng
    // a negative radius (never passed by the app) turns the box inside out
    ensures radiusKm < 0.0 ==> box.maxLat < box.minLat && box.maxLng < box.minLng
    // the latitude half-span depends on the radius alone; the longitude
    // half-span is it divided by the cosine of the latitude
    ensures box.maxLat - lat == LatDeltaDeg(radiusKm)
    ensures (box.maxLng - lng) * cosLat == box.maxLat - lat
  {
    LngDeltaTimesCos(radiusKm, cosLat);
    var latDeltaDeg := LatDeltaDeg(radiusKm);
    var lngDeltaDeg := LngDeltaDeg(radiusKm, cosLat);
    BoundingBox(lat - latDeltaDeg, lat + latDeltaDeg, lng - lngDeltaDeg, lng + lngDeltaDeg)
  }

  lemma LngDeltaTimesCos(radiusKm: real, cosLat: real)
    requires cosLat > 0.0
    ensures LngDeltaDeg(radiusKm, cosLat) * cosLat == LatDeltaDeg(radiusKm)
    ensures radiusKm > 0.0 ==> LngDeltaDeg(radiusKm, cosLat) > 0.0
    ensures radiusKm < 0.0 ==> LngDeltaDeg(radiusKm, cosLat) < 0.0
  {
    var k := 180.0 / (EARTH_RADIUS_KM * PI);
    assert LatDeltaDeg(radiusKm) == radiusKm * k;
    assert LngDeltaDeg(radiusKm, cosLat) == (radiusKm / cosLat) * k;
    assert (radiusKm / cosLat) * cosLat == radiusKm;
    if radiusKm > 0.0 {
      assert radiusKm / cosLat > 0.0;
    } else if radiusKm < 0.0 {
      assert radiusKm / cosLat < 0.0;
    }
  }

  /** A larger radius gives a box that strictly contains the smaller one,
      on the same centre, in both directions. */
  lemma BoxGrowsWithRadius(lat: real, lng: real, r1: real, r2: real, cosLat: real)
    requires cosLat > 0.0
    requires r1 < r2
    ensures var small, large := GetBoundingBox(lat, lng, r1, cosLat), GetBoundingBox(lat, lng, r2, cosLat);
      && large.minLat < small.minLat && small.maxLat < large.maxLat
      && large.minLng < small.minLng && small.maxLng < large.maxLng
      && large.maxLat - large.minLat > small.maxLat - small.minLat
      && large.maxLng - large.minLng > small.maxLng - small.minLng
  {
    LngDeltaTimesCos(r2 - r1, cosLat);
    var k := 180.0 / (EARTH_RADIUS_KM * PI);
    assert LngDeltaDeg(r2, cosLat) - LngDeltaDeg(r1, cosLat) == LngDeltaDeg(r2 - r1, cosLat) by {
      assert r2 / cosLat - r1 / cosLat == (r2 - r1) / cosLat;
      assert LngDeltaDeg(r2, cosLat) == (r2 / cosLat) * k;
      assert LngDeltaDeg(r1, cosLat) == (r1 / cosLat) * k;
      assert LngDeltaDeg(r2 - r1, cosLat) == ((r2 - r1) / cosLat) * k;
    }
  }

  /** The escalation radii are 2, 3, 5 and 10 km, strictly increasing from
      the default radius; five spots end the escalation; the fallback position
      is central Sendai. */
  lemma SearchConstants()
    ensures RADIUS_STEPS == [2.0, 3.0, 5.0, 10.0] && DEFAULT_RADIUS_KM == 2.0
    ensures RADIUS_STEPS[0] == DEFAULT_RADIUS_KM
    ensures forall i, j :: 0 <= i < j < |RADIUS_STEPS| ==> 0.0 < RADIUS_STEPS[i] < RADIUS_STEPS[j]
    ensures MIN_SPOTS_THRESHOLD == 5
    ensures DEFAULT_LOCATION.latitude == 38.2682 && DEFAULT_LOCATION.longitude == 140.8694
  {
  }

  /** Every box the escalation asks for strictly contains the previous one. */
  lemma EscalationBoxesNest(lat: real, lng: real, cosLat: real, i: nat)
    requires cosLat > 0.0
    requires i + 1 < |RADIUS_STEPS|
    ensures var inner, outer := GetBoundingBox(lat, lng, RADIUS_STEPS[i], cosLat), GetBoundingBox(lat, lng, RADIUS_STEPS[i + 1], cosLat);
      && outer.minLat < inner.minLat && inner.maxLat < outer.maxLat
      && outer.minLng < inner.minLng && inner.maxLng < outer.maxLng
  {
    SearchConstants();
    BoxGrowsWithRadius(lat, lng, RADIUS_STEPS[i], RADIUS_STEPS[i + 1], cosLat);
  }
}
