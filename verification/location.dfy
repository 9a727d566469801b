/** `find_nearest_station` in backend/location_utils.py: a linear scan for
    the station closest to a defect. The great-circle distance
    (`haversine_distance`) is a parameter, so the scan is proved for every
    distance function. */
module Location {
  import opened Wrappers

  /** A row of the stations table, as far as the scan reads it. */
  datatype Station = Station(id: int, name: string, latitude: real, longitude: real)

  /** The distance from the defect to a station. */
  function DistanceTo(
    haversine: (real, real, real, real) -> real, lat: real, lon: real, s: Station): real
  {
    haversine(lat, lon, s.latitude, s.longitude)
  }

  /** The scan: `min_distance` starts at infinity (`None` here) and a station
      replaces the current choice only when it is strictly closer, so the
      earliest of equally close stations is kept. */
  method FindNearestStation(
    lat: real, lon: real, stations: seq<Station>,
    haversine: (real, real, real, real) -> real)
    returns (nearest: Option<Station>)
    ensures nearest.None? <==> |stations| == 0
    ensures nearest.Some? ==>
              forall j :: 0 <= j < |stations| ==>
                DistanceTo(haversine, lat, lon, nearest.value)
                <= DistanceTo(haversine, lat, lon, stations[j])
    ensures nearest.Some? ==>
              exists k :: 0 <= k < |stations| && stations[k] == nearest.value
                && forall j :: 0 <= j < k ==>
                     DistanceTo(haversine, lat, lon, stations[j])
                     > DistanceTo(haversine, lat, lon, stations[k])
  {
    if |stations| == 0 {
      return None;
    }
    var best: Option<nat> := None;
    var minDistance: real := 0.0;
    var i := 0;
    while i < |stations|
      invariant 0 <= i <= |stations|
      invariant best.None? <==> i == 0
      invariant best.Some? ==> best.value < i
      invariant best.Some? ==> minDistance == DistanceTo(haversine, lat, lon, stations[best.value])
      invariant best.Some? ==>
                  forall j :: 0 <= j < i ==> minDistance <= DistanceTo(haversine, lat, lon, stations[j])
      invariant best.Some? ==>
                  forall j :: 0 <= j < best.value ==> minDistance < DistanceTo(haversine, lat, lon, stations[j])
    {
      var distance := DistanceTo(haversine, lat, lon, stations[i]);
      if best.None? || distance < minDistance {
        minDistance := distance;
        best := Some(i);
      }
      i := i + 1;
    }
    nearest := Some(stations[best.value]);
  }
}
