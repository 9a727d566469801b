/** frontend/src/pages/DronePage.jsx: the camera and upload analysis page.
    The camera, the canvas and the timers are outside the model; a request is
    an outcome passed in, and one tick of the auto-analysis interval is one
    call. */
module DronePage {
  import opened Wrappers
  import opened Records

  /** `mode`: `null`, 'camera' or 'upload'. */
  datatype Mode = NoMode | Camera | Upload

  /** The part of an `/upload-analyze` reply the page branches on. */
  datatype Reply = Reply(status: Option<string>, severity: Option<string>)

  /** The page state. `stream` is reduced to whether one is open, the
      selected file and its preview URL to their names. */
  datatype Page = Page(
    mode: Mode,
    processing: bool,
    capturing: bool,
    autoAnalyze: bool,
    result: Option<Reply>,
    error: string,
    streamOpen: bool,
    selectedImage: Option<string>,
    previewUrl: Option<string>,
    useDefaultLocation: bool,
    latitude: real,
    longitude: real)

  const DefaultLatitude: real := 28.6139
  const DefaultLongitude: real := 77.2090

  const InitialPage: Page :=
    Page(NoMode, false, false, false, None, "", false, None, None, true, DefaultLatitude, DefaultLongitude)

  /** The query of an analysis request: the coordinates only in manual
      location mode. */
  function QueryParams(p: Page): (q: seq<(string, real)>)
    ensures p.useDefaultLocation <==> |q| == 0
    ensures !p.useDefaultLocation ==> q == [("latitude", p.latitude), ("longitude", p.longitude)]
  {
    if p.useDefaultLocation then [] else [("latitude", p.latitude), ("longitude", p.longitude)]
  }

  /** A coordinate input: `parseFloat(value) || 0`. */
  function CoordinateInput(value: string, parseFloat: string -> Option<real>): (r: real)
    ensures parseFloat(value).None? ==> r == 0.0
    ensures parseFloat(value).Some? ==> r == parseFloat(value).value
  {
    OrZero(parseFloat(value))
  }

  /** `startCamera`: on permission the camera mode opens, otherwise only the
      error is set. */
  function StartCamera(p: Page, granted: bool): (r: Page)
    ensures granted ==> r == p.(streamOpen := true, mode := Camera, error := "")
    ensures !granted ==> r == p.(error := "Failed to access camera. Please grant camera permissions.")
  {
    if granted then p.(streamOpen := true, mode := Camera, error := "")
    else p.(error := "Failed to access camera. Please grant camera permissions.")
  }

  /** `stopCamera`: no stream, no mode, not capturing, auto-analysis off. */
  function StopCamera(p: Page): (r: Page)
    ensures !r.streamOpen && r.mode == NoMode && !r.capturing && !r.autoAnalyze
    ensures r.result == p.result && r.error == p.error && r.processing == p.processing
    ensures r.selectedImage == p.selectedImage && r.previewUrl == p.previewUrl
  {
    p.(streamOpen := false, mode := NoMode, capturing := false, autoAnalyze := false)
  }

  /** `reset`: the camera stopped and the image, preview, result and error
      cleared; the location choice stays. */
  function Reset(p: Page): (r: Page)
    ensures !r.streamOpen && r.mode == NoMode && !r.capturing && !r.autoAnalyze
    ensures r.selectedImage.None? && r.previewUrl.None? && r.result.None? && r.error == ""
    ensures r.processing == p.processing
    ensures r.useDefaultLocation == p.useDefaultLocation && r.latitude == p.latitude && r.longitude == p.longitude
  {
    StopCamera(p).(selectedImage := None, previewUrl := None, result := None, error := "", mode := NoMode)
  }

  /** Resetting twice is resetting once. */
  lemma ResetIdempotent(p: Page)
    ensures Reset(Reset(p)) == Reset(p)
  {
  }

  /** The capture button is disabled while capturing or processing. */
  predicate CaptureDisabled(p: Page) {
    p.capturing || p.processing
  }

  /** `captureFrame` up to the request. `refsReady` says both the video and
      the canvas element exist; without them nothing happens. A manual
      capture clears the previous result, an automatic one keeps it. */
  function CaptureStart(p: Page, refsReady: bool): (r: Page)
    ensures !refsReady ==> r == p
    ensures refsReady ==> r.capturing && r.processing && r.error == ""
    ensures refsReady ==> (r.result == if p.autoAnalyze then p.result else None)
    ensures refsReady ==> r.mode == p.mode && r.autoAnalyze == p.autoAnalyze
  {
    if !refsReady then p
    else p.(capturing := true, processing := true, error := "",
            result := if p.autoAnalyze then p.result else None)
  }

  /** The end of a request: the reply, or the server's `detail`, or the
      fixed failure text; processing ends. */
  function Finish(p: Page, outcome: Result<Reply, Option<string>>, failure: string): (r: Page)
    ensures !r.processing && r.capturing == p.capturing
    ensures outcome.Ok? ==> r.result == Some(outcome.value) && r.error == p.error
    ensures outcome.Err? ==> r.result == p.result && r.error == OrText(outcome.error, failure)
  {
    match outcome
    case Ok(reply) => p.(result := Some(reply), processing := false)
    case Err(detail) => p.(error := OrText(detail, failure), processing := false)
  }

  const FrameFailure: string := "Failed to process frame"
  const ImageFailure: string := "Failed to process image"

  /** Two seconds after a capture the button is enabled again. */
  function CaptureCooldown(p: Page): (r: Page)
    ensures !r.capturing
    ensures r.(capturing := p.capturing) == p
  {
    p.(capturing := false)
  }

  /** One tick of the auto-analysis interval: the interval runs only in
      camera mode with auto-analysis on, and a tick captures only when
      neither processing nor capturing. */
  function AutoTick(p: Page, refsReady: bool): (r: Page)
    ensures !(p.autoAnalyze && p.mode == Camera) ==> r == p
    ensures CaptureDisabled(p) ==> r == p
    ensures p.autoAnalyze && p.mode == Camera && !CaptureDisabled(p) ==> r == CaptureStart(p, refsReady)
  {
    if p.autoAnalyze && p.mode == Camera && !p.processing && !p.capturing then CaptureStart(p, refsReady)
    else p
  }

  /** The auto-analysis button flips the flag and nothing else. */
  function ToggleAutoAnalyze(p: Page): (r: Page)
    ensures r.autoAnalyze != p.autoAnalyze
    ensures r.(autoAnalyze := p.autoAnalyze) == p
  {
    p.(autoAnalyze := !p.autoAnalyze)
  }

  /** Once the camera is stopped no tick captures, and turning auto-analysis
      on again does not restart it until the camera mode is back. */
  lemma StoppedCameraNeverTicks(p: Page, refsReady: bool)
    ensures AutoTick(StopCamera(p), refsReady) == StopCamera(p)
    ensures AutoTick(ToggleAutoAnalyze(StopCamera(p)), refsReady) == ToggleAutoAnalyze(StopCamera(p))
  {
  }

  /** An automatic capture never clears a shown result. */
  lemma AutoTickKeepsResult(p: Page, refsReady: bool)
    ensures AutoTick(p, refsReady).result == p.result
  {
  }

  /** `handleImageSelect`: a chosen file opens the upload mode with its
      preview and clears the error and result. */
  function SelectImage(p: Page, file: Option<string>, preview: string): (r: Page)
    ensures file.None? ==> r == p
    ensures file.Some? ==> r == p.(selectedImage := file, previewUrl := Some(preview), mode := Upload,
                                   error := "", result := None)
  {
    if file.None? then p
    else p.(selectedImage := file, previewUrl := Some(preview), mode := Upload, error := "", result := None)
  }

  /** `processUploadedImage` up to the request: nothing without a selected
      image. */
  function UploadStart(p: Page): (r: Page)
    ensures p.selectedImage.None? ==> r == p
    ensures p.selectedImage.Some? ==> r == p.(processing := true, error := "", result := None)
  {
    if p.selectedImage.None? then p else p.(processing := true, error := "", result := None)
  }

  /** A full upload cycle: choosing a file and analysing it ends in the
      upload mode with the file still selected and not processing, showing
      either the reply or the failure text, never both. */
  lemma UploadCycle(p: Page, f: string, url: string, outcome: Result<Reply, Option<string>>)
    ensures var started := UploadStart(SelectImage(p, Some(f), url));
            var done := Finish(started, outcome, ImageFailure);
            && started.processing
            && done.mode == Upload && !done.processing
            && done.selectedImage == Some(f) && done.previewUrl == Some(url)
            && (outcome.Ok? ==> done.result == Some(outcome.value) && done.error == "")
            && (outcome.Err? ==> done.result.None? && done.error == OrText(outcome.error, ImageFailure))
  {
  }

  /** The result heading. */
  function ResultLabel(status: Option<string>): (r: string)
    ensures status == Some("defect_detected") <==> r == "Defect Detected!"
    ensures status == Some("no_defect") <==> r == "No Defect Found"
    ensures status != Some("defect_detected") && status != Some("no_defect") <==> r == "Low Confidence"
  {
    if status == Some("defect_detected") then "Defect Detected!"
    else if status == Some("no_defect") then "No Defect Found"
    else "Low Confidence"
  }

  /** The capture button's text. */
  function CaptureLabel(p: Page): (r: string)
    ensures p.processing ==> r == "Processing..."
    ensures !p.processing && p.capturing ==> r == "Captured!"
    ensures r == "Capture & Analyze Frame" <==> !CaptureDisabled(p)
  {
    if p.processing then "Processing..."
    else if p.capturing then "Captured!"
    else "Capture & Analyze Frame"
  }

  /** A full manual capture cycle: the button is disabled from the capture
      until the cooldown, and then enabled with the reply shown. */
  lemma CaptureCycle(p: Page, reply: Reply)
    requires !CaptureDisabled(p)
    ensures var started := CaptureStart(p, true);
            var done := Finish(started, Ok(reply), FrameFailure);
            && CaptureDisabled(started) && CaptureDisabled(done)
            && !CaptureDisabled(CaptureCooldown(done))
            && CaptureCooldown(done).result == Some(reply)
  {
  }
}
