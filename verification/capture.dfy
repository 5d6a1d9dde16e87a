/**
 * The measurement screen as a state machine. Every browser callback the screen registers (the
 * camera button, each animation-frame detection, the countdown interval, the recorder's data and
 * stop events, the steps of the upload) runs to completion on one event loop, so the screen is
 * one record of state and one transition per callback.
 *
 * The detection loop is stopped by `StopCamera` wherever it stands, and each detection reads the
 * current model-loaded flag; the code as written does neither (see `CaptureAsWritten`).
 */
module Capture {
  import opened Wrappers
  import opened Strings
  import Json
  import JsNumber
  import Vitals
  import Alignment

  datatype Step = Start | Camera | Recording | Analyzing | ResultStep | ErrorStep

  /** The line of guidance under the camera view; each constructor stands for one fixed message. */
  datatype Guide =
    | NoGuide            // ""
    | PreparingCamera    // カメラを起動しています...
    | LoadingModel       // 顔認識モデルを読み込み中...
    | AlignFace          // 顔を枠の中に合わせてください
    | AlignBeforeCapture // 顔を枠の中に合わせてから撮影してください
    | Measuring          // 測定中です。そのまま動かないでください。
    | NoFaceSeen         // 顔が検出されません。…
    | FaceOutside        // 顔が枠からはみ出しています。…
    | ConvertingClip     // 映像をMP4に変換中...
    | AnalysingClip      // バイタルサインを分析中...
    | PleaseWait         // 分析中です。しばらくお待ちください...

  /** Where the detection loop stands: not running, waiting for an animation frame, or awaiting the detector. */
  datatype Loop = Stopped | Scheduled | InFlight

  /** One blob delivered by a recorder's `dataavailable` event. */
  datatype Chunk = Chunk(recorder: nat, size: nat)

  datatype Format = WebM | Mp4

  /** A video made of the recorded chunks. */
  datatype Clip = Clip(format: Format, chunks: seq<Chunk>)

  /** The asynchronous tail of a recorder's `onstop`: conversion, then upload. */
  datatype Pipeline = Idle | Converting(webm: Clip) | Sending(clip: Clip)

  /**
   * The screen's state. `recording` holds the recorders whose state is "recording";
   * `stopping` those that have stopped but whose `stop` event has not run yet; `timer` is the
   * recorder whose countdown interval is set; `sent` lists the clips handed to `sendToApi`.
   */
  datatype Session = Session(
    step: Step,
    face: Alignment.FaceStatus,
    guide: Guide,
    cameraError: bool,
    result: Option<Vitals.VitalResult>,
    countdown: int,
    isRecording: bool,
    hasStarted: bool,
    chunks: seq<Chunk>,
    stream: bool,
    loop: Loop,
    modelLoaded: bool,
    timer: Option<nat>,
    recorderRef: Option<nat>,
    recording: set<nat>,
    stopping: set<nat>,
    nextRecorder: nat,
    pipeline: Pipeline,
    sent: seq<Clip>)

  /** The state the screen mounts with. */
  function Init(): Session {
    Session(Start, Alignment.NoFace, NoGuide, false, None, 6, false, false, [], false, Stopped, false,
            None, None, {}, {}, 0, Idle, [])
  }

  /** The five `Math.random()` draws of the fallback result. */
  datatype Draws = Draws(bpm: real, sys: real, dia: real, s2: real, ltv: real)

  predicate Unit(r: real) {
    0.0 <= r < 1.0
  }

  predicate DrawsValid(d: Draws) {
    Unit(d.bpm) && Unit(d.sys) && Unit(d.dia) && Unit(d.s2) && Unit(d.ltv)
  }

  datatype Event =
    | ModelLoaded
    | CameraOpened
    | CameraFailed
    | StartRecording
    | Frame
    | Detected(probe: Alignment.Probe)
    | CountdownTick
    | Data(recorder: nat, size: nat)
    | RecorderStopped(recorder: nat)
    | Converted(ok: bool)
    | ApiReplied(reply: Option<Json.Js>, draws: Draws)
    | Reset

  /**
   * When the browser can deliver each event: the start button is on the start screen, the
   * capture button only on the camera screen before the first press and only while the face is
   * inside, the reset buttons only on the result and error screens; the other events follow
   * from what is pending.
   */
  predicate Enabled(s: Session, e: Event) {
    match e
    case ModelLoaded => !s.modelLoaded
    case CameraOpened => s.step == Start
    case CameraFailed => s.step == Start
    case StartRecording => s.step == Camera && !s.hasStarted && s.face == Alignment.Inside
    case Frame => s.loop == Scheduled
    case Detected(_) => s.loop == InFlight
    case CountdownTick => s.timer.Some?
    case Data(id, _) => id in s.recording || id in s.stopping
    case RecorderStopped(id) => id in s.stopping
    case Converted(_) => s.pipeline.Converting?
    case ApiReplied(_, d) => s.pipeline.Sending? && DrawsValid(d)
    case Reset => s.step == ResultStep || s.step == ErrorStep
  }

  /**
   * `stopCamera`: the detection loop, the countdown interval and the camera all end; ending the
   * camera's tracks stops every recorder still recording.
   */
  function StopCamera(s: Session): (t: Session)
    ensures !t.stream && t.loop == Stopped && t.timer.None?
    ensures s.stream ==> t.recording == {} && t.stopping == s.stopping + s.recording
    ensures !s.stream ==> t.recording == s.recording && t.stopping == s.stopping
    ensures t.(stream := s.stream, loop := s.loop, timer := s.timer, recording := s.recording,
               stopping := s.stopping) == s
  {
    s.(loop := Stopped, timer := None, stream := false,
       recording := if s.stream then {} else s.recording,
       stopping := if s.stream then s.stopping + s.recording else s.stopping)
  }

  /**
   * `beginRecording`: without a camera nothing happens; otherwise a fresh recorder starts, the
   * chunks are emptied, the countdown restarts at 6 and its interval is set.
   */
  function BeginRecording(s: Session): (t: Session)
    ensures !s.stream ==> t == s
    ensures s.stream ==> (
      t.step == Recording && t.isRecording && t.chunks == [] && t.countdown == 6
      && t.guide == Measuring && t.recorderRef == Some(s.nextRecorder) && t.timer == Some(s.nextRecorder)
      && t.recording == s.recording + {s.nextRecorder} && t.nextRecorder == s.nextRecorder + 1
      && t.hasStarted == s.hasStarted && t.stopping == s.stopping && t.stream && t.loop == s.loop
      && t.face == s.face && t.pipeline == s.pipeline && t.sent == s.sent && t.result == s.result)
  {
    if !s.stream then s
    else
      var id := s.nextRecorder;
      s.(chunks := [], countdown := 6, step := Recording, guide := Measuring, isRecording := true,
         recorderRef := Some(id), recording := s.recording + {id}, nextRecorder := id + 1,
         timer := Some(id))
  }

  /** The face-api weights finish loading. */
  function OnModelLoaded(s: Session): (t: Session)
    ensures t.modelLoaded && t.(modelLoaded := s.modelLoaded) == s
  {
    s.(modelLoaded := true)
  }

  /** `startCamera` when the camera is granted: the camera screen opens and the loop is scheduled. */
  function OnCameraOpened(s: Session): (t: Session)
    ensures t.stream && t.step == Camera && t.loop == Scheduled && t.face == Alignment.Loading
    ensures t.guide == AlignFace
  {
    s.(face := Alignment.Loading, stream := true, step := Camera, guide := AlignFace, loop := Scheduled)
  }

  /** `startCamera` when the camera is refused: the error screen, with nothing started. */
  function OnCameraFailed(s: Session): (t: Session)
    ensures t.step == ErrorStep && t.cameraError && t.face == Alignment.Loading
    ensures t.guide == (if s.modelLoaded then PreparingCamera else LoadingModel)
    ensures t.stream == s.stream && t.loop == s.loop && t.isRecording == s.isRecording
  {
    s.(guide := if s.modelLoaded then PreparingCamera else LoadingModel, face := Alignment.Loading,
       cameraError := true, step := ErrorStep)
  }

  /**
   * `startRecording`, the capture button. Without a camera or a face inside the oval only the
   * guide changes; otherwise the take is marked as started and recording begins.
   */
  function OnStartRecording(s: Session): (t: Session)
    ensures !s.stream || s.face != Alignment.Inside ==> t == s.(guide := AlignBeforeCapture)
    ensures s.stream && s.face == Alignment.Inside ==>
      t.hasStarted && t.step == Recording && t.isRecording && t.chunks == [] && t.countdown == 6
  {
    if !s.stream || s.face != Alignment.Inside then s.(guide := AlignBeforeCapture)
    else BeginRecording(s.(hasStarted := true))
  }

  /** An animation frame fires: a detection starts. */
  function OnFrame(s: Session): (t: Session)
    ensures t == s.(loop := InFlight)
  {
    s.(loop := InFlight)
  }

  /**
   * The face left the oval during a take: the current recorder is stopped if it is still
   * recording, the interval is cleared and the take is discarded; `hasStarted` is kept so the
   * take resumes by itself.
   */
  function Abort(s: Session, face: Alignment.FaceStatus): (t: Session)
    ensures !t.isRecording && t.chunks == [] && t.countdown == 6 && t.step == Camera && t.timer.None?
    ensures t.guide == (if face == Alignment.NoFace then NoFaceSeen else FaceOutside)
    ensures t.hasStarted == s.hasStarted && t.stream == s.stream && t.loop == s.loop
    ensures t.pipeline == s.pipeline && t.sent == s.sent
  {
    var s1 :=
      if s.recorderRef.Some? && s.recorderRef.value in s.recording then
        s.(recording := s.recording - {s.recorderRef.value},
           stopping := s.stopping + {s.recorderRef.value}, recorderRef := None)
      else s;
    s1.(timer := None, isRecording := false, chunks := [], countdown := 6, step := Camera,
        guide := if face == Alignment.NoFace then NoFaceSeen else FaceOutside)
  }

  /** The loop aborts a take exactly when a take is running and the face is not inside. */
  predicate AbortsOn(s: Session, face: Alignment.FaceStatus) {
    s.isRecording && face != Alignment.Inside
  }

  /** The loop resumes a take exactly when one was started, none is running, and the face is inside. */
  predicate ResumesOn(s: Session, face: Alignment.FaceStatus) {
    s.hasStarted && !s.isRecording && face == Alignment.Inside
  }

  /**
   * The body of one detection-loop iteration once the detector has answered: record the
   * status, abort a running take the face has left, resume a started take the face is back in,
   * and schedule the next frame.
   */
  function AfterDetection(s: Session, face: Alignment.FaceStatus): (t: Session)
  {
    var s1 := s.(face := face);
    var s2 := if AbortsOn(s1, face) then Abort(s1, face) else s1;
    var s3 := if ResumesOn(s2, face) then BeginRecording(s2) else s2;
    s3.(loop := Scheduled)
  }

  /** One detection settles, classified with the model-loaded flag as it is now. */
  function OnDetected(s: Session, p: Alignment.Probe): (t: Session)
    ensures t.face == Alignment.Classify(p, s.modelLoaded) && t.loop == Scheduled
  {
    AfterDetection(s, Alignment.Classify(p, s.modelLoaded))
  }

  /**
   * One tick of the countdown interval: the countdown drops by one; when it reaches zero the
   * interval is cleared and the recorder it belongs to is stopped if it is still recording.
   */
  function OnCountdownTick(s: Session): (t: Session)
    ensures s.timer.Some? ==> t.countdown == s.countdown - 1
    ensures s.timer.Some? && s.countdown - 1 > 0 ==> t == s.(countdown := s.countdown - 1)
    ensures s.timer.Some? && s.countdown - 1 <= 0 ==> (
      t.timer.None?
      && (s.timer.value in s.recording ==> s.timer.value !in t.recording && s.timer.value in t.stopping))
    ensures t.isRecording == s.isRecording && t.step == s.step && t.sent == s.sent
  {
    match s.timer
    case None => s
    case Some(id) =>
      var c := s.countdown - 1;
      if c > 0 then s.(countdown := c)
      else if id in s.recording then
        s.(countdown := c, timer := None, recording := s.recording - {id}, stopping := s.stopping + {id})
      else s.(countdown := c, timer := None)
  }

  /** `ondataavailable`: a non-empty blob joins the current chunk list, whichever recorder sent it. */
  function OnData(s: Session, id: nat, size: nat): (t: Session)
    ensures size > 0 ==> t.chunks == s.chunks + [Chunk(id, size)]
    ensures size == 0 ==> t == s
    ensures t.(chunks := s.chunks) == s
  {
    if size > 0 then s.(chunks := s.chunks + [Chunk(id, size)]) else s
  }

  /**
   * `onstop`: ignored when no take is running; otherwise the take ends, the camera stops, the
   * screen turns to analysing and the recorded chunks go to conversion as a WebM clip.
   */
  function OnRecorderStopped(s: Session, id: nat): (t: Session)
    ensures id !in s.recording ==> id !in t.stopping
    ensures !s.isRecording ==> t == s.(stopping := s.stopping - {id})
    ensures s.isRecording ==> (
      !t.isRecording && !t.hasStarted && !t.stream && t.loop == Stopped
      && t.step == Analyzing && t.guide == ConvertingClip && t.pipeline == Converting(Clip(WebM, s.chunks))
      && t.sent == s.sent)
  {
    var s0 := s.(stopping := s.stopping - {id});
    if !s0.isRecording then s0
    else
      var webm := Clip(WebM, s0.chunks);
      var s1 := StopCamera(s0.(isRecording := false, hasStarted := false));
      s1.(step := Analyzing, guide := ConvertingClip, pipeline := Converting(webm))
  }

  /**
   * The conversion settles: the MP4 when it succeeded, the original WebM when it failed, is
   * handed to `sendToApi`, exactly once.
   */
  function OnConverted(s: Session, ok: bool): (t: Session)
    requires s.pipeline.Converting?
    ensures var c := s.pipeline.webm;
      var sentClip := if ok then Clip(Mp4, c.chunks) else c;
      t.sent == s.sent + [sentClip] && t.pipeline == Sending(sentClip)
    ensures t.guide == (if ok then AnalysingClip else PleaseWait)
    ensures t.step == s.step
  {
    var c := s.pipeline.webm;
    var clip := if ok then Clip(Mp4, c.chunks) else c;
    s.(guide := if ok then AnalysingClip else PleaseWait, pipeline := Sending(clip), sent := s.sent + [clip])
  }

  /** `data.code === 200 && data.data`, where reading `code` off `null` throws. */
  predicate ApiSucceeded(data: Json.Js) {
    !Json.Nullish(data) && Json.Get(data, "code") == Json.JNum(200.0) && Json.Truthy(Json.Get(data, "data"))
  }

  /**
   * The fallback result: pulse, pressures and S2 from integer draws, LTv to two decimals. Read
   * back, the pulse lies in 65–84, the systolic pressure in 110–134, the diastolic pressure in
   * 68–82 and LTv in 1.20–2.00.
   */
  function MockResult(d: Draws): (r: Vitals.VitalResult)
    requires DrawsValid(d)
    ensures Vitals.Reading(r.bpm).Some? && 65.0 <= Vitals.Reading(r.bpm).value <= 84.0
    ensures Vitals.Reading(r.bpv1).Some? && 110.0 <= Vitals.Reading(r.bpv1).value <= 134.0
    ensures Vitals.Reading(r.bpv0).Some? && 68.0 <= Vitals.Reading(r.bpv0).value <= 82.0
    ensures Vitals.Reading(r.LTv).Some? && 1.2 <= Vitals.Reading(r.LTv).value <= 2.0
  {
    var bpm := 65 + (d.bpm * 20.0).Floor;
    var sys := 110 + (d.sys * 25.0).Floor;
    var dia := 68 + (d.dia * 15.0).Floor;
    var s2 := 95 + (d.s2 * 5.0).Floor;
    var ltv := 1.2 + d.ltv * 0.8;
    var r := Vitals.VitalResult(
      Json.JStr(ShowNat(bpm)), Json.JStr(ShowNat(sys)), Json.JStr(ShowNat(dia)),
      Json.JStr("[" + ShowNat(s2) + "]"), Json.JStr(JsNumber.ToFixed2(ltv)));
    DrawFloors(d);
    DrawnReading(bpm, 65, 84, r.bpm);
    DrawnReading(sys, 110, 134, r.bpv1);
    DrawnReading(dia, 68, 82, r.bpv0);
    LtvReadsBack(ltv, r.LTv);
    r
  }

  /** `Math.floor(Math.random() * w)` lies in `[0, w - 1]`. */
  lemma DrawFloors(d: Draws)
    requires DrawsValid(d)
    ensures 0 <= (d.bpm * 20.0).Floor < 20 && 0 <= (d.sys * 25.0).Floor < 25 && 0 <= (d.dia * 15.0).Floor < 15
  {
  }

  /** `n.toString()` reads back as `n`, so within any bounds `n` lies in. */
  lemma DrawnReading(n: nat, lo: nat, hi: nat, v: Json.Js)
    requires lo <= n <= hi && v == Json.JStr(ShowNat(n))
    ensures Vitals.Reading(v) == Some(n as real)
    ensures Vitals.Reading(v).Some? && lo as real <= Vitals.Reading(v).value <= hi as real
  {
    JsNumber.ParseShowNat(n);
  }

  /** `ltv.toFixed(2)` for an LTv drawn in `[1.2, 2.0)` reads back within `[1.2, 2.0]`. */
  lemma LtvReadsBack(ltv: real, v: Json.Js)
    requires 1.2 <= ltv < 2.0 && v == Json.JStr(JsNumber.ToFixed2(ltv))
    ensures Vitals.Reading(v).Some? && 1.2 <= Vitals.Reading(v).value <= 2.0
  {
    JsNumber.ToFixed2ReadsBack(ltv);
    assert 120 <= JsNumber.Hundredths(ltv) <= 200;
  }

  /**
   * `sendToApi` once the reply is in (`None` when the request or `res.json()` threw): the
   * service's five fields when it reports success, the fallback result otherwise.
   */
  function SendOutcome(reply: Option<Json.Js>, d: Draws): (r: Vitals.VitalResult)
    requires DrawsValid(d)
    ensures reply.Some? && ApiSucceeded(reply.value) ==>
      var v := Json.Get(reply.value, "data");
      r == Vitals.VitalResult(Json.Get(v, "bpm"), Json.Get(v, "bpv1"), Json.Get(v, "bpv0"),
                              Json.Get(v, "S2"), Json.Get(v, "LTv"))
    ensures !(reply.Some? && ApiSucceeded(reply.value)) ==> r == MockResult(d)
  {
    if reply.Some? && ApiSucceeded(reply.value) then
      var v := Json.Get(reply.value, "data");
      Vitals.VitalResult(Json.Get(v, "bpm"), Json.Get(v, "bpv1"), Json.Get(v, "bpv0"),
                         Json.Get(v, "S2"), Json.Get(v, "LTv"))
    else MockResult(d)
  }

  /** The upload settles: the screen shows a result, whatever the service answered. */
  function OnApiReplied(s: Session, reply: Option<Json.Js>, d: Draws): (t: Session)
    requires DrawsValid(d)
    ensures t.step == ResultStep && t.result == Some(SendOutcome(reply, d)) && t.pipeline == Idle
    ensures t.sent == s.sent && t.stream == s.stream
  {
    s.(result := Some(SendOutcome(reply, d)), step := ResultStep, pipeline := Idle)
  }

  /** `handleReset`: the camera stops and the screen returns to its start state. */
  function OnReset(s: Session): (t: Session)
    ensures t.step == Start && t.result.None? && t.countdown == 6 && t.face == Alignment.NoFace
    ensures t.chunks == [] && !t.isRecording && !t.hasStarted && !t.cameraError && t.guide == NoGuide
    ensures !t.stream && t.loop == Stopped && t.timer.None?
  {
    StopCamera(s).(isRecording := false, hasStarted := false, step := Start, result := None,
                   cameraError := false, countdown := 6, guide := NoGuide, face := Alignment.NoFace,
                   chunks := [])
  }

  /** One event, delivered when the browser can deliver it. */
  function Next(s: Session, e: Event): Session
    requires Enabled(s, e)
  {
    match e
    case ModelLoaded => OnModelLoaded(s)
    case CameraOpened => OnCameraOpened(s)
    case CameraFailed => OnCameraFailed(s)
    case StartRecording => OnStartRecording(s)
    case Frame => OnFrame(s)
    case Detected(p) => OnDetected(s, p)
    case CountdownTick => OnCountdownTick(s)
    case Data(id, size) => OnData(s, id, size)
    case RecorderStopped(id) => OnRecorderStopped(s, id)
    case Converted(ok) => OnConverted(s, ok)
    case ApiReplied(reply, d) => OnApiReplied(s, reply, d)
    case Reset => OnReset(s)
  }
}
