/**
 * What holds of the measurement screen across events: the state stays consistent under every
 * event the browser can deliver, each take that reaches `onstop` is uploaded exactly once, the
 * detection loop aborts and resumes takes as the face leaves and re-enters the oval, and the
 * fallback result always grades 良好.
 */
module CaptureProofs {
  import opened Wrappers
  import opened Strings
  import Json
  import JsNumber
  import Vitals
  import Alignment
  import opened Capture

  /**
   * The consistency of the screen's state: a take runs exactly on the recording screen; the
   * camera is on exactly on the camera and recording screens, and exactly while the detection
   * loop runs; only the take's own recorder records, exactly while its countdown runs; a take
   * whose countdown has finished has its recorder's stop event pending; the upload is in
   * progress exactly on the analysing screen; a result exists exactly on the result screen.
   */
  predicate Inv(s: Session) {
    (s.isRecording <==> s.step == Recording)
    && (s.stream <==> s.step == Camera || s.step == Recording)
    && (s.stream <==> s.loop != Stopped)
    && (s.hasStarted ==> s.stream)
    && (s.timer.Some? ==> s.isRecording && s.recorderRef == s.timer && 1 <= s.countdown <= 6)
    && s.recording == (if s.timer.Some? then {s.timer.value} else {})
    && (s.isRecording && s.timer.None? ==> s.recorderRef.Some? && s.recorderRef.value in s.stopping)
    && (s.step == Analyzing <==> !s.pipeline.Idle?)
    && (s.step == ResultStep <==> s.result.Some?)
    && (s.step == ErrorStep <==> s.cameraError)
    && s.recording !! s.stopping
    && (forall id :: id in s.stopping ==> id < s.nextRecorder)
    && (s.timer.Some? ==> s.timer.value < s.nextRecorder)
  }

  lemma InitInv()
    ensures Inv(Init())
  {
  }

  /** Every event the browser can deliver keeps the state consistent. */
  lemma NextPreservesInv(s: Session, e: Event)
    requires Inv(s) && Enabled(s, e)
    ensures Inv(Next(s, e))
  {
    match e
    case Detected(p) => DetectedPreservesInv(s, p);
    case CountdownTick => TickPreservesInv(s);
    case RecorderStopped(id) => StopPreservesInv(s, id);
    case StartRecording => StartPreservesInv(s);
    case _ =>
  }

  lemma StartPreservesInv(s: Session)
    requires Inv(s) && Enabled(s, StartRecording)
    ensures Inv(OnStartRecording(s))
  {
    var t := OnStartRecording(s);
    assert s.timer.None? && s.recording == {};
    assert t.recording == {s.nextRecorder};
  }

  lemma TickPreservesInv(s: Session)
    requires Inv(s) && s.timer.Some?
    ensures Inv(OnCountdownTick(s))
  {
    var id := s.timer.value;
    assert id in s.recording;
  }

  lemma StopPreservesInv(s: Session, id: nat)
    requires Inv(s) && id in s.stopping
    ensures Inv(OnRecorderStopped(s, id))
  {
    assert id !in s.recording;
  }

  lemma DetectedPreservesInv(s: Session, p: Alignment.Probe)
    requires Inv(s) && s.loop == InFlight
    ensures Inv(OnDetected(s, p))
  {
    var f := Alignment.Classify(p, s.modelLoaded);
    var s1 := s.(face := f);
    var s2 := if AbortsOn(s1, f) then Abort(s1, f) else s1;
    assert Inv(s2) && s2.loop == InFlight by {
      if AbortsOn(s1, f) {
        AbortPreservesInv(s1, f);
      }
    }
    var s3 := if ResumesOn(s2, f) then BeginRecording(s2) else s2;
    assert Inv(s3) && s3.loop == InFlight by {
      if ResumesOn(s2, f) {
        assert s2.timer.None? && s2.recording == {};
        assert s3.recording == {s2.nextRecorder};
      }
    }
    assert OnDetected(s, p) == s3.(loop := Scheduled);
  }

  lemma AbortPreservesInv(s: Session, f: Alignment.FaceStatus)
    requires Inv(s) && s.isRecording
    ensures Inv(Abort(s, f))
  {
    if s.timer.Some? {
      assert s.recorderRef.value in s.recording;
    }
  }

  /** Replays a sequence of events; `None` when one of them could not have been delivered. */
  function Run(s: Session, es: seq<Event>): Option<Session>
    decreases |es|
  {
    if |es| == 0 then Some(s)
    else if Enabled(s, es[0]) then Run(Next(s, es[0]), es[1..])
    else None
  }

  /** Every state the screen can reach from its initial state is consistent. */
  lemma {:induction false} RunPreservesInv(s: Session, es: seq<Event>)
    requires Inv(s) && Run(s, es).Some?
    ensures Inv(Run(s, es).value)
    decreases |es|
  {
    if |es| > 0 {
      NextPreservesInv(s, es[0]);
      RunPreservesInv(Next(s, es[0]), es[1..]);
    }
  }

  /** The event hands a recorded take to conversion: a stop event while a take is running. */
  predicate Submits(s: Session, e: Event) {
    e.RecorderStopped? && s.isRecording
  }

  /** A take is converting and has not been sent yet. */
  function Unsent(s: Session): nat {
    if s.pipeline.Converting? then 1 else 0
  }

  /**
   * Each take handed to conversion is sent exactly once: every event adds to the clips sent and
   * the take awaiting conversion together exactly one per take it submits, and a take is only
   * submitted while no earlier one is still in conversion or upload.
   */
  lemma SendAccounting(s: Session, e: Event)
    requires Inv(s) && Enabled(s, e)
    ensures var t := Next(s, e);
      |t.sent| + Unsent(t) == |s.sent| + Unsent(s) + (if Submits(s, e) then 1 else 0)
    ensures Submits(s, e) ==> s.pipeline.Idle?
  {
    match e
    case ModelLoaded =>
    case CameraOpened =>
    case CameraFailed =>
    case StartRecording =>
    case Frame =>
    case Detected(p) =>
    case CountdownTick =>
    case Data(id, size) =>
    case RecorderStopped(id) =>
    case Converted(ok) =>
    case ApiReplied(reply, d) =>
    case Reset =>
  }

  /** The number of takes a replayed sequence of events submits. */
  function SubmittedTakes(s: Session, es: seq<Event>): nat
    requires Run(s, es).Some?
    decreases |es|
  {
    if |es| == 0 then 0
    else (if Submits(s, es[0]) then 1 else 0) + SubmittedTakes(Next(s, es[0]), es[1..])
  }

  /**
   * Over any run, the clips sent plus the take still in conversion are exactly the takes
   * submitted: no take is lost and none is sent twice.
   */
  lemma {:induction false} SentOncePerTake(s: Session, es: seq<Event>)
    requires Inv(s) && Run(s, es).Some?
    ensures var t := Run(s, es).value;
      |t.sent| + Unsent(t) == |s.sent| + Unsent(s) + SubmittedTakes(s, es)
    decreases |es|
  {
    if |es| > 0 {
      SendAccounting(s, es[0]);
      NextPreservesInv(s, es[0]);
      SentOncePerTake(Next(s, es[0]), es[1..]);
    }
  }

  /**
   * Abort and resume never fire for the same detection: the abort guard needs a take
   * running (`isRecording`) and the resume guard needs none, so this holds by the guards alone.
   */
  lemma AbortResumeExclusive(s: Session, f: Alignment.FaceStatus)
    ensures !(AbortsOn(s, f) && ResumesOn(s, f))
  {
  }

  /**
   * One detection settles. A face that is not inside during a take aborts it: the take is
   * dropped, the countdown and screen reset, `hasStarted` kept, and the guide names the reason.
   * A face inside after a started take resumes it. Otherwise only the status changes.
   */
  lemma DetectionTick(s: Session, p: Alignment.Probe)
    requires Inv(s) && s.loop == InFlight
    ensures var f := Alignment.Classify(p, s.modelLoaded);
      var t := OnDetected(s, p);
      && (AbortsOn(s, f) ==>
            !t.isRecording && t.chunks == [] && t.countdown == 6 && t.step == Camera
            && t.hasStarted == s.hasStarted && t.timer.None? && t.recording == {}
            && t.guide == (if f == Alignment.NoFace then NoFaceSeen else FaceOutside))
      && (ResumesOn(s, f) ==>
            t.isRecording && t.step == Recording && t.chunks == [] && t.countdown == 6 && t.hasStarted
            && t.recording == {s.nextRecorder})
      && (!AbortsOn(s, f) && !ResumesOn(s, f) ==> t == s.(face := f, loop := Scheduled))
  {
    var f := Alignment.Classify(p, s.modelLoaded);
    if AbortsOn(s, f) {
      AbortPreservesInv(s.(face := f), f);
    }
    if ResumesOn(s, f) {
      assert s.timer.None? && s.recording == {};
    }
  }

  /**
   * The stop event of a take the loop aborted is ignored when it arrives before the take
   * resumes: nothing is converted or sent.
   */
  lemma AbortedTakeNotSubmitted(s: Session, p: Alignment.Probe)
    requires Inv(s) && s.loop == InFlight && s.isRecording
    requires Alignment.Classify(p, s.modelLoaded) != Alignment.Inside
    ensures var t := OnDetected(s, p);
      s.recorderRef.Some? && s.recorderRef.value in t.stopping
      && OnRecorderStopped(t, s.recorderRef.value).pipeline == s.pipeline
      && OnRecorderStopped(t, s.recorderRef.value).sent == s.sent
      && !OnRecorderStopped(t, s.recorderRef.value).isRecording
  {
    var f := Alignment.Classify(p, s.modelLoaded);
    if s.timer.Some? {
      assert s.recorderRef.value in s.recording;
    }
  }

  /** `stopCamera` and `handleReset` may run twice: the second run changes nothing. */
  lemma ResetIdempotent(s: Session)
    ensures StopCamera(StopCamera(s)) == StopCamera(s)
    ensures OnReset(OnReset(s)) == OnReset(s)
  {
  }

  /** When the service fails, the fallback result always earns the top grade 良好. */
  lemma MockIsGood(d: Draws)
    requires DrawsValid(d)
    ensures Vitals.Evaluation(MockResult(d)) == Vitals.Good
  {
  }

  /** An upload that fails in any way still ends on the result screen, with a result graded 良好. */
  lemma FailedUploadShowsGoodResult(s: Session, reply: Option<Json.Js>, d: Draws)
    requires DrawsValid(d) && !(reply.Some? && ApiSucceeded(reply.value))
    ensures var t := OnApiReplied(s, reply, d);
      t.step == ResultStep && t.result.Some? && Vitals.Evaluation(t.result.value) == Vitals.Good
  {
    MockIsGood(d);
  }
}
