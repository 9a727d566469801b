/** vision/vision_agent.py: which frames are sent to the model, which model
    answers are forwarded to the backend, and where the agent believes it
    is. The camera, the model and backend requests, the geocoder, console
    input and the random drift are inputs or left out. */
module Vision {
  import opened Wrappers
  import opened Text
  import opened PyValue
  import Intake

  /** `CONFIDENCE_THRESHOLD`. */
  const ConfidenceThreshold: real := 70.0

  /** `PROCESS_EVERY_N_FRAMES`. */
  const ProcessEvery: nat := 30

  /** The confidence read from a model answer: `float(data.get("confidence",
      0))`, so a missing value is 0; `None` when `float()` raises.
      `toFloat` is Python's `float()` on a decoded value. */
  function Confidence(data: Dict, toFloat: Value -> Option<real>): (r: Option<real>)
    ensures "confidence" !in data ==> r == Some(0.0)
    ensures "confidence" in data ==> r == toFloat(data["confidence"])
  {
    if "confidence" in data then toFloat(data["confidence"]) else Some(0.0)
  }

  /** The confidence a model answer is forwarded with, `None` when the frame
      is not forwarded: the prediction (default "Unknown") must be exactly
      "Defective" and the confidence strictly above the threshold. */
  function ForwardConfidence(data: Dict, toFloat: Value -> Option<real>): (r: Option<real>)
    ensures r.Some? <==>
              && Get(data, "prediction", Str("Unknown")) == Str("Defective")
              && Confidence(data, toFloat).Some?
              && Confidence(data, toFloat).value > ConfidenceThreshold
    ensures r.Some? ==> r == Confidence(data, toFloat) && r.value > ConfidenceThreshold
  {
    var prediction := Get(data, "prediction", Str("Unknown"));
    match Confidence(data, toFloat)
    case None => None
    case Some(c) => if prediction == Str("Defective") && c > ConfidenceThreshold then Some(c) else None
  }

  /** A missing prediction or a missing confidence never forwards. */
  lemma MissingFieldsNeverForward(data: Dict, toFloat: Value -> Option<real>)
    requires "prediction" !in data || "confidence" !in data
    ensures ForwardConfidence(data, toFloat).None?
  {
  }

  /** Exactly at the threshold nothing is forwarded. */
  lemma ThresholdIsStrict(toFloat: Value -> Option<real>, v: Value)
    requires toFloat(v) == Some(ConfidenceThreshold)
    ensures ForwardConfidence(map["prediction" := Str("Defective"), "confidence" := v], toFloat).None?
  {
  }

  /** The body posted to the backend's `/analyze`: `imagePath` is the saved
      file's absolute path and (`lat`, `lon`) the metadata position. */
  function Payload(
    data: Dict, toFloat: Value -> Option<real>, imagePath: string, lat: real, lon: real)
    : (r: Option<Intake.DefectCreate>)
    ensures r.Some? <==> ForwardConfidence(data, toFloat).Some?
    ensures r.Some? ==>
              && r.value.defectType == "Track Defect"
              && r.value.confidence == ForwardConfidence(data, toFloat).value
              && r.value.imageUrl == imagePath
              && r.value.nearestStation == Some(LocationName)
              && r.value.latitude == Some(lat) && r.value.longitude == Some(lon)
              && r.value.chainage.None?
  {
    match ForwardConfidence(data, toFloat)
    case None => None
    case Some(c) => Some(Intake.DefectCreate("Track Defect", c, imagePath, Some(lat), Some(lon), None, Some(LocationName)))
  }

  // ---------------------------------------------------------------------
  // Frame sampling.
  // ---------------------------------------------------------------------

  /** The capture loop of `webcam_mode` and `drone_mode` over `n` frames: the
      count goes up by one per frame, from 1, and a frame is submitted when
      the count is a multiple of 30. Returns the submitted counts. */
  method SampleFrames(n: nat) returns (submitted: seq<nat>)
    ensures |submitted| == n / ProcessEvery
    ensures forall i :: 0 <= i < |submitted| ==> submitted[i] == ProcessEvery * (i + 1)
    ensures forall k :: 1 <= k <= n ==> (k in submitted <==> k % ProcessEvery == 0)
  {
    submitted := [];
    var frameCount: nat := 0;
    while frameCount < n
      invariant frameCount <= n
      invariant |submitted| == frameCount / ProcessEvery
      invariant forall i :: 0 <= i < |submitted| ==> submitted[i] == ProcessEvery * (i + 1)
    {
      frameCount := frameCount + 1;
      if frameCount % ProcessEvery == 0 {
        submitted := submitted + [frameCount];
      }
    }
    forall k | 1 <= k <= n
      ensures k in submitted <==> k % ProcessEvery == 0
    {
      if k % ProcessEvery == 0 {
        assert submitted[k / ProcessEvery - 1] == k;
      }
    }
  }

  // ---------------------------------------------------------------------
  // Location.
  // ---------------------------------------------------------------------

  /** The name sent as `nearest_station`. */
  const LocationName: string := "Detected Location"

  const DefaultLat: real := 28.6139
  const DefaultLon: real := 77.2090

  /** The module globals `current_lat`, `current_lon` and
      `location_initialized`. */
  datatype Location = Location(lat: Option<real>, lon: Option<real>, initialized: bool)

  const Uninitialized: Location := Location(None, None, false)

  /** The console answers `initialize_location` would read: whether to use
      the geolocated position, and the two typed coordinates (raw; they are
      stripped here). `parseFloat` is Python's `float()` on text. */
  datatype Answers = Answers(useActual: string, latInput: string, lonInput: string)

  /** The manual position: both inputs must be non-empty after stripping and
      both must parse; otherwise the default. */
  function ManualPosition(a: Answers, parseFloat: string -> Option<real>): (r: (real, real))
    ensures var lat := PyStrip(a.latInput);
            var lon := PyStrip(a.lonInput);
            if lat != "" && lon != "" && parseFloat(lat).Some? && parseFloat(lon).Some?
            then r == (parseFloat(lat).value, parseFloat(lon).value)
            else r == (DefaultLat, DefaultLon)
  {
    var lat := PyStrip(a.latInput);
    var lon := PyStrip(a.lonInput);
    if lat != "" && lon != "" then
      match (parseFloat(lat), parseFloat(lon))
      case (Some(x), Some(y)) => (x, y)
      case _ => (DefaultLat, DefaultLon)
    else (DefaultLat, DefaultLon)
  }

  /** `initialize_location`: nothing once initialised; otherwise the
      geolocated position (`actual`) when there is one and the answer is
      "y" after stripping and lower-casing, else the manual position. */
  function InitializeLocation(
    s: Location, actual: Option<(real, real)>, a: Answers, parseFloat: string -> Option<real>)
    : (r: Location)
    ensures s.initialized ==> r == s
    ensures !s.initialized ==> r.initialized && r.lat.Some? && r.lon.Some?
    ensures !s.initialized && actual.Some? && Lower(PyStrip(a.useActual)) == "y" ==>
              (r.lat.value, r.lon.value) == actual.value
    ensures !s.initialized && !(actual.Some? && Lower(PyStrip(a.useActual)) == "y") ==>
              (r.lat.value, r.lon.value) == ManualPosition(a, parseFloat)
  {
    if s.initialized then s
    else if actual.Some? && Lower(PyStrip(a.useActual)) == "y" then
      Location(Some(actual.value.0), Some(actual.value.1), true)
    else
      var (lat, lon) := ManualPosition(a, parseFloat);
      Location(Some(lat), Some(lon), true)
  }

  /** Initialising twice asks nothing the second time. */
  lemma InitializeOnce(
    s: Location, actual: Option<(real, real)>, a: Answers, b: Answers,
    actual2: Option<(real, real)>, parseFloat: string -> Option<real>)
    ensures var once := InitializeLocation(s, actual, a, parseFloat);
            InitializeLocation(once, actual2, b, parseFloat) == once
  {
  }

  /** Blank input gives the default position. */
  lemma BlankInputGivesDefault(s: Location, latInput: string, parseFloat: string -> Option<real>)
    requires !s.initialized
    ensures var r := InitializeLocation(s, None, Answers("", latInput, ""), parseFloat);
            r.lat == Some(DefaultLat) && r.lon == Some(DefaultLon)
  {
    StripEmptyIff("", PyIsSpace);
  }

  /** `drone_mode` sets the default position and the flag without asking,
      so a later `initialize_location` asks nothing. */
  function DroneModeLocation(s: Location): (r: Location)
    ensures r.initialized && r.lat == Some(DefaultLat) && r.lon == Some(DefaultLon)
    ensures forall actual, a, parseFloat :: InitializeLocation(r, actual, a, parseFloat) == r
  {
    Location(Some(DefaultLat), Some(DefaultLon), true)
  }

  /** Every path of the module sets both coordinates before the flag. */
  predicate Consistent(s: Location) {
    s.initialized ==> s.lat.Some? && s.lon.Some?
  }

  /** `get_location_metadata` before rounding: the position initialised if
      needed, then moved by the drift (`random.uniform(-0.0001, 0.0001)`
      each, passed in). */
  function LocationMetadata(
    s: Location, actual: Option<(real, real)>, a: Answers, parseFloat: string -> Option<real>,
    dLat: real, dLon: real)
    : (r: (Location, real, real))
    requires Consistent(s)
    requires -0.0001 <= dLat <= 0.0001 && -0.0001 <= dLon <= 0.0001
    ensures Consistent(r.0) && r.0.initialized && r.0.lat == Some(r.1) && r.0.lon == Some(r.2)
    ensures var before := InitializeLocation(s, actual, a, parseFloat);
            && before.lat.value - 0.0001 <= r.1 <= before.lat.value + 0.0001
            && before.lon.value - 0.0001 <= r.2 <= before.lon.value + 0.0001
  {
    var init := InitializeLocation(s, actual, a, parseFloat);
    var lat := init.lat.value + dLat;
    var lon := init.lon.value + dLon;
    (Location(Some(lat), Some(lon), true), lat, lon)
  }
}
