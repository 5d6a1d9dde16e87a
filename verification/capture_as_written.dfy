/**
 * Two places where the measurement screen's code does not do what it evidently intends, each
 * modelled as written and set against the corrected behaviour `Capture` uses.
 *
 * The detection loop is a closure created when the camera starts. It holds the `detectFace`
 * of that moment, and with it the model-loaded flag of that moment: if the camera opens before
 * the face model has loaded, every later detection reports "no face", so the capture button
 * never enables. `stopCamera` cancels only an animation frame still pending; a detection
 * already awaiting the detector schedules the next frame when it settles, so the loop
 * outlives the camera.
 */
module CaptureAsWritten {
  import opened Wrappers
  import Alignment
  import opened Capture
  import CaptureProofs

  /** `stopCamera` as written: `cancelAnimationFrame` stops a pending frame, not a detection in flight. */
  function StopCameraAsWritten(s: Session): (t: Session)
    ensures t.loop == (if s.loop == InFlight then InFlight else Stopped)
    ensures t.(loop := Stopped) == StopCamera(s)
  {
    StopCamera(s).(loop := if s.loop == InFlight then InFlight else Stopped)
  }

  /** `onstop` as written: as in `Capture`, but stopping the camera the way the code does. */
  function OnRecorderStoppedAsWritten(s: Session, id: nat): (t: Session)
    ensures s.isRecording ==> t.loop == (if s.loop == InFlight then InFlight else Stopped)
    ensures t.(loop := Stopped) == OnRecorderStopped(s, id).(loop := Stopped)
  {
    var s0 := s.(stopping := s.stopping - {id});
    if !s0.isRecording then s0
    else
      var webm := Clip(WebM, s0.chunks);
      var s1 := StopCameraAsWritten(s0.(isRecording := false, hasStarted := false));
      s1.(step := Analyzing, guide := ConvertingClip, pipeline := Converting(webm))
  }

  /**
   * A settled detection as written: classified with the model-loaded flag the loop captured
   * when the camera started, and followed by a new frame whether or not the camera still runs.
   */
  function OnDetectedAsWritten(s: Session, captured: bool, p: Alignment.Probe): (t: Session)
    ensures t.face == Alignment.Classify(p, captured) && t.loop == Scheduled
  {
    AfterDetection(s, Alignment.Classify(p, captured))
  }

  /** A frame with a face centred in the oval. */
  function GoodProbe(): Alignment.Probe {
    Alignment.Probe(true, true, 4, 640, 480, Some(Alignment.Box(160.0, 120.0, 320.0, 240.0)))
  }

  /**
   * The loop started before the model loaded sees no face in any frame, so the capture
   * button, which needs a face inside the oval, never becomes usable.
   */
  lemma StaleModelFlagSeesNoFace(s: Session, p: Alignment.Probe)
    ensures OnDetectedAsWritten(s, false, p).face == Alignment.NoFace
    ensures !Enabled(OnDetectedAsWritten(s, false, p), StartRecording)
  {
  }

  /**
   * The sequence that shows it: the camera opens while the model is still loading, the model
   * then loads, and a frame with a well-placed face arrives. As written the screen reports no
   * face; reading the current flag, it reports the face inside and the capture button enables.
   */
  lemma StaleModelFlagCounterexample()
    ensures var s0 := Init();
      var s1 := Next(s0, CameraOpened);
      var s2 := Next(s1, ModelLoaded);
      var s3 := Next(s2, Frame);
      var captured := s0.modelLoaded;
      && !captured && s3.modelLoaded
      && OnDetectedAsWritten(s3, captured, GoodProbe()).face == Alignment.NoFace
      && Next(s3, Detected(GoodProbe())).face == Alignment.Inside
      && Enabled(Next(s3, Detected(GoodProbe())), StartRecording)
  {
    Alignment.CentredBoxAccepted(640, 480);
  }

  /** The state of a take whose countdown has just run out while a detection is in flight. */
  function FinishedTake(): Session {
    Session(Recording, Alignment.Inside, Measuring, false, None, 0, true, true, [Chunk(0, 100)],
            true, InFlight, true, None, Some(0), {}, {0}, 1, Idle, [])
  }

  /**
   * The loop outlives the camera. The recorder's stop event of a finished take stops the
   * camera while a detection is in flight; as written, that detection then schedules another
   * frame, on the analysing screen with no camera, and the consistency of the state is lost.
   * With the loop stopped wherever it stands, the state stays consistent.
   */
  lemma LoopOutlivesCameraCounterexample()
    ensures CaptureProofs.Inv(FinishedTake())
    ensures var t1 := OnRecorderStoppedAsWritten(FinishedTake(), 0);
      var t2 := OnDetectedAsWritten(t1, true, GoodProbe());
      && t1.step == Analyzing && !t1.stream && t1.loop == InFlight
      && t2.step == Analyzing && !t2.stream && t2.loop == Scheduled
      && !CaptureProofs.Inv(t2)
    ensures var c := Next(FinishedTake(), RecorderStopped(0));
      c.step == Analyzing && c.loop == Stopped && CaptureProofs.Inv(c)
  {
    CaptureProofs.NextPreservesInv(FinishedTake(), RecorderStopped(0));
  }
}
