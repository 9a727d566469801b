/** frontend/src/components/MapComponent.jsx: the map's centre, the
    recentring on a selection and one marker per defect. Leaflet itself and
    the tiles are outside the model. */
module MapView {
  import opened Wrappers
  import opened Records

  /** A coordinate pair as the component passes it on; a `null` latitude or
      longitude stays `None`. */
  datatype Position = Position(lat: Option<real>, lon: Option<real>)

  /** `[28.6139, 77.2090]`, New Delhi. */
  const DefaultCenter: Position := Position(Some(28.6139), Some(77.2090))

  function PositionOf(d: Defect): Position {
    Position(d.latitude, d.longitude)
  }

  /** The centre: the selected defect's coordinates, else the first defect's,
      else the default. */
  function Center(defects: seq<Defect>, selected: Option<Defect>): (c: Position)
    ensures selected.Some? ==> c == PositionOf(selected.value)
    ensures selected.None? && |defects| > 0 ==> c == PositionOf(defects[0])
    ensures selected.None? && |defects| == 0 ==> c == DefaultCenter
  {
    if selected.Some? then PositionOf(selected.value)
    else if |defects| > 0 then PositionOf(defects[0])
    else DefaultCenter
  }

  /** `RecenterMap` is rendered, and flies to the selection, only when a
      defect is selected. */
  function Recenter(selected: Option<Defect>): (r: Option<Position>)
    ensures r.Some? <==> selected.Some?
    ensures r.Some? ==> r.value == Center([], selected)
  {
    if selected.Some? then Some(PositionOf(selected.value)) else None
  }

  datatype Icon = Red | Gold | Blue

  /** Red for "Critical", gold for "High", blue for every other severity. */
  function IconFor(severity: string): (i: Icon)
    ensures i == Red <==> severity == "Critical"
    ensures i == Gold <==> severity == "High"
    ensures i == Blue <==> severity != "Critical" && severity != "High"
  {
    if severity == "Critical" then Red
    else if severity == "High" then Gold
    else Blue
  }

  /** A marker: its key, its position with `|| 0` applied, and its icon. */
  datatype Marker = Marker(key: int, lat: real, lon: real, icon: Icon)

  /** One marker per defect, in list order. */
  function Markers(defects: seq<Defect>): (m: seq<Marker>)
    ensures |m| == |defects|
    ensures forall i :: 0 <= i < |defects| ==>
              && m[i].key == defects[i].id
              && m[i].lat == OrZero(defects[i].latitude)
              && m[i].lon == OrZero(defects[i].longitude)
              && m[i].icon == IconFor(defects[i].severity)
  {
    seq(|defects|, i requires 0 <= i < |defects| =>
      Marker(defects[i].id, OrZero(defects[i].latitude), OrZero(defects[i].longitude),
             IconFor(defects[i].severity)))
  }

  /** A marker sits exactly on its defect when both coordinates are known,
      and on the 0 line of a missing one. */
  lemma MarkerPlacement(defects: seq<Defect>, i: nat)
    requires i < |defects|
    ensures var m := Markers(defects)[i];
            && (defects[i].latitude.Some? ==> m.lat == defects[i].latitude.value)
            && (defects[i].latitude.None? ==> m.lat == 0.0)
            && (defects[i].longitude.Some? ==> m.lon == defects[i].longitude.value)
            && (defects[i].longitude.None? ==> m.lon == 0.0)
  {
  }
}
