/**
 * The face-capture component: a camera stream held in a ref, React state for
 * `cameraActive`, `isAnalyzing`, `result`, `error` and `capturedImage`, and the
 * delayed mock analysis that submits its result.
 *
 * Each handler runs to completion before the next event, so state updates
 * are modelled as taking effect at once. The two-second timer is an event of
 * its own (`AnalysisTimerFires`); `timers` holds the image each scheduled
 * callback captured, in firing order.
 */
module Camera {
  import opened Wrappers
  import opened Devices
  import Api

  /** The mock analyzer's result object. */
  datatype FaceResult = FaceResult(symmetry: real, status: string, message: string, confidence: real)

  /** The submitted payload `{ ...mockResult, image }`. */
  datatype FacePayload = FacePayload(symmetry: real, status: string, message: string, confidence: real, image: string)

  const CameraDenied: string := "Camera access denied. Please allow camera permissions to proceed."
  /** The placeholder session id every face result is submitted under. */
  const TempSession: string := "temp-session"

  /** The canned analysis: symmetry and confidence are scores in [0, 1]. */
  function MockResult(): (r: FaceResult)
    ensures 0.0 <= r.symmetry <= 1.0 && 0.0 <= r.confidence <= 1.0
    ensures r.status == "Normal"
  {
    FaceResult(0.98, "Normal", "No significant asymmetry detected.", 0.95)
  }

  /** The request the timer callback posts: the result spread together with the captured image. */
  function FaceSubmission(image: string): (req: Api.DataRequest<FacePayload>)
    ensures req.sessionId == TempSession && req.kind == "face"
    ensures req.payload.image == image
    ensures req.payload.symmetry == MockResult().symmetry && req.payload.confidence == MockResult().confidence
    ensures req.payload.status == MockResult().status && req.payload.message == MockResult().message
  {
    var m := MockResult();
    Api.DataRequest(TempSession, "face", FacePayload(m.symmetry, m.status, m.message, m.confidence, image))
  }

  /** JavaScript truthiness of what `captureImage` returns (`null` or a data URL). */
  predicate IsFrame(capture: Option<string>) {
    capture.Some? && capture.value != ""
  }

  class CameraModule {
    var stream: MediaStream?           // streamRef.current
    var cameraActive: bool
    var isAnalyzing: bool
    var result: Option<FaceResult>
    var error: Option<string>
    var capturedImage: Option<string>
    var timers: seq<string>
    var mounted: bool

    /**
     * A stream is held exactly while the camera is active; a held stream and a
     * captured image never coexist; analysis runs on a captured image and so
     * never with a stream held.
     */
    ghost predicate Valid()
      reads this
    {
      && (stream != null <==> cameraActive)
      && (cameraActive ==> capturedImage.None?)
      && (isAnalyzing ==> capturedImage.Some?)
      && (isAnalyzing ==> stream == null)
    }

    /** The device resources a handler may release. */
    ghost function Held(): set<object>
      reads this
    {
      if stream == null then {} else {stream.tracks}
    }

    /** The "Tap to Enable Camera" placeholder is shown (and so `startCamera` reachable). */
    predicate PlaceholderShown()
      reads this
    {
      !cameraActive && capturedImage.None?
    }

    /** The "Capture & Analyze" button is shown and enabled. */
    predicate CaptureEnabled()
      reads this
    {
      result.None? && !isAnalyzing && cameraActive
    }

    constructor ()
      ensures Valid() && mounted && PlaceholderShown()
      ensures stream == null && !cameraActive && !isAnalyzing
      ensures result.None? && error.None? && capturedImage.None? && timers == []
    {
      stream := null;
      cameraActive, isAnalyzing := false, false;
      result, error, capturedImage := None, None, None;
      timers := [];
      mounted := true;
    }

    /**
     * `startCamera`, reached from the placeholder. `acquired` is what
     * `getUserMedia` resolved to, or `None` when it rejected.
     */
    method StartCamera(acquired: Option<MediaStream>) returns (ok: bool)
      requires Valid() && mounted && PlaceholderShown()
      modifies this
      ensures Valid()
      ensures ok == acquired.Some?
      ensures ok ==> stream == acquired.value && cameraActive && error.None?
      ensures !ok ==> stream == null && !cameraActive && error == Some(CameraDenied)
      ensures isAnalyzing == old(isAnalyzing) && result == old(result)
      ensures capturedImage == old(capturedImage) && timers == old(timers) && mounted == old(mounted)
    {
      match acquired
      case Some(s) =>
        stream := s;
        cameraActive := true;
        error := None;
        ok := true;
      case None =>
        error := Some(CameraDenied);
        ok := false;
    }

    /** `stopCamera`: stops every track of a held stream and drops it; harmless without one. */
    method StopCamera()
      modifies this, Held()
      ensures old(stream) != null ==> old(stream).Released()
      ensures stream == null && !cameraActive
      ensures isAnalyzing == old(isAnalyzing) && result == old(result) && error == old(error)
      ensures capturedImage == old(capturedImage) && timers == old(timers) && mounted == old(mounted)
    {
      if stream != null {
        stream.StopTracks();
        stream := null;
      }
      cameraActive := false;
    }

    /**
     * `analyzeFace` with `capture` what `captureImage` returns. Without an
     * active camera or a frame nothing happens; otherwise the frame is kept,
     * the stream released, analysis begins and one timer is scheduled.
     */
    method AnalyzeFace(capture: Option<string>)
      requires Valid() && mounted
      modifies this, Held()
      ensures Valid()
      ensures !(old(cameraActive) && IsFrame(capture)) ==>
        stream == old(stream) && cameraActive == old(cameraActive) && isAnalyzing == old(isAnalyzing)
        && capturedImage == old(capturedImage) && timers == old(timers)
      ensures !(old(cameraActive) && IsFrame(capture)) && old(stream) != null ==> unchanged(old(stream).tracks)
      ensures old(cameraActive) && IsFrame(capture) ==>
        old(stream).Released() && stream == null && !cameraActive
        && capturedImage == capture && isAnalyzing && timers == old(timers) + [capture.value]
      ensures result == old(result) && error == old(error) && mounted == old(mounted)
    {
      if !cameraActive {
        return;
      }
      if !IsFrame(capture) {
        return;
      }
      capturedImage := capture;
      StopCamera();
      isAnalyzing := true;
      timers := timers + [capture.value];
    }

    /**
     * The two-second callback of the earliest pending timer: it shows the
     * canned result (ignored by React once unmounted) and, mounted or not,
     * posts it under the placeholder session id.
     */
    method AnalysisTimerFires() returns (sent: Api.DataRequest<FacePayload>)
      requires Valid() && timers != []
      modifies this
      ensures Valid()
      ensures sent == FaceSubmission(old(timers)[0])
      ensures timers == old(timers)[1..]
      ensures mounted ==> result == Some(MockResult()) && !isAnalyzing
      ensures !mounted ==> result == old(result) && isAnalyzing == old(isAnalyzing)
      ensures stream == old(stream) && cameraActive == old(cameraActive) && error == old(error)
      ensures capturedImage == old(capturedImage) && mounted == old(mounted)
    {
      var image := timers[0];
      timers := timers[1..];
      if mounted {
        result := Some(MockResult());
        isAnalyzing := false;
      }
      sent := FaceSubmission(image);
    }

    /** `reset` ("Retake"): clears the result, the analysis flag and the image; the camera and error stay. */
    method Reset()
      requires Valid() && mounted
      modifies this
      ensures Valid()
      ensures result.None? && !isAnalyzing && capturedImage.None?
      ensures stream == old(stream) && cameraActive == old(cameraActive) && error == old(error)
      ensures timers == old(timers) && mounted == old(mounted)
    {
      result := None;
      isAnalyzing := false;
      capturedImage := None;
    }

    /** The unmount cleanup: `stopCamera`, whatever the state. Pending timers still fire. */
    method Unmount()
      requires Valid() && mounted
      modifies this, Held()
      ensures Valid() && !mounted
      ensures old(stream) != null ==> old(stream).Released()
      ensures stream == null && !cameraActive
      ensures timers == old(timers)
    {
      StopCamera();
      mounted := false;
    }
  }

  /**
   * Clicking Capture twice on one live feed analyses once: the first click
   * releases the camera and hides the Capture button, so the second is a
   * no-op and one timer is pending.
   */
  method CaptureTwiceSchedulesOnce(first: string, second: string) returns (pending: nat, live: bool, enabled: bool)
    requires first != ""
    ensures pending == 1 && !live && !enabled
  {
    var feed := new MediaStream(1);
    var camera := new CameraModule();
    var ok := camera.StartCamera(Some(feed));
    camera.AnalyzeFace(Some(first));
    enabled := camera.CaptureEnabled();
    camera.AnalyzeFace(Some(second));
    pending := |camera.timers|;
    live := feed.tracks[0];
  }

  /**
   * A capture that yields no frame leaves the live feed running, the Capture
   * button enabled and nothing scheduled.
   */
  method EmptyCaptureKeepsFeed() returns (live: bool, enabled: bool, pending: nat)
    ensures live && enabled && pending == 0
  {
    var feed := new MediaStream(1);
    var camera := new CameraModule();
    var ok := camera.StartCamera(Some(feed));
    camera.AnalyzeFace(None);
    live, enabled := feed.tracks[0], camera.CaptureEnabled();
    pending := |camera.timers|;
  }
}
