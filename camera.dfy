/**
 * The camera manager (app/services/camera.py): start/stop over the streaming
 * flag, the device handle and the acquisition loop, the status projection,
 * one iteration of each acquisition loop, and the posture analysis.
 *
 * The background thread is the ghost field `loop` (which loop is running) and
 * the ghost counter `spawned` (how many threads `start` has launched); a loop
 * iteration is a step method. Whether `cv2` imports, whether the device opens,
 * what the device reads and what the estimator infers are inputs.
 */
module Camera {
  import opened Wrappers
  import opened Schemas
  import Pose

  /** A colour as a blue, green, red triple. */
  datatype Bgr = Bgr(b: int, g: int, r: int)

  /** What a frame holds: a solid colour (with the overlay text drawn on it, if any), or a device image. */
  datatype Content = Fill(color: Bgr, overlay: Option<string>) | Captured(pixels: seq<bv8>)

  /** An image of `height` x `width` x `channels` 8-bit samples. */
  datatype Frame = Frame(height: nat, width: nat, channels: nat, content: Content)

  /** The outcome of one `cap.read()`: a failure, or a BGR image of the given size. */
  datatype ReadResult = ReadFailed | ReadFrame(height: nat, width: nat, pixels: seq<bv8>)

  /** An opened `cv2.VideoCapture` of a device, with the size and rate it was configured for. */
  datatype Capture = Capture(device: nat, width: nat, height: nat, fps: nat)

  /** Which acquisition loop is running in the background, if any. */
  datatype LoopKind = NoLoop | StubLoop | CaptureLoop

  /** The dictionary `status()` returns. */
  datatype StatusReport = StatusReport(streaming: bool, width: nat, height: nat, fps: nat, backend: string)

  /** What the estimator does with the latest frame: it fails, or it reports a detection. */
  datatype Inference = InferenceFailed | Inferred(detection: Pose.Detection)

  const White: Bgr := Bgr(255, 255, 255)
  const StubGrey: Bgr := Bgr(40, 40, 40)
  const StubLabel: string := "STUB STREAM"

  /**
   * How the optional pose estimator comes up. `poseImports` says whether the
   * estimator's module loads; `mediapipePresent` whether its inference library does.
   */
  datatype PoseInit = PoseReady | PoseAbsent | InitRaises

  /**
   * The constructor as written: the estimator's module loads even without its
   * inference library (it swallows that import error), so the estimator class is
   * present and constructing it raises, which the camera manager does not catch.
   */
  function PoseInitAsWritten(poseImports: bool, mediapipePresent: bool): (r: PoseInit)
    ensures r == InitRaises <==> poseImports && !mediapipePresent
    ensures r == PoseReady <==> poseImports && mediapipePresent
  {
    if !poseImports then PoseAbsent
    else if !mediapipePresent then InitRaises
    else PoseReady
  }

  /** Without the inference library the manager cannot even be constructed. */
  lemma AsWrittenNoFallbackWithoutMediapipe()
    ensures PoseInitAsWritten(true, false) == InitRaises
  {
  }

  /**
   * The intended rule: an unavailable estimator is treated as absent, so the
   * manager always comes up and `analyze` falls back.
   */
  function PoseInitGuarded(poseImports: bool, mediapipePresent: bool): (r: PoseInit)
    ensures r != InitRaises
    ensures r == PoseReady <==> poseImports && mediapipePresent
    ensures PoseInitAsWritten(poseImports, mediapipePresent) != InitRaises ==>
              r == PoseInitAsWritten(poseImports, mediapipePresent)
  {
    if poseImports && mediapipePresent then PoseReady else PoseAbsent
  }

  /** The synthetic analysis returned whenever the estimator cannot be used. */
  function FallbackAnalysis(timestamp: string): (a: Analysis)
    ensures a.keypoints == map[
              "nose" := Keypoint(0.5, 0.2, 0.0, 0.9),
              "left_shoulder" := Keypoint(0.4, 0.35, 0.0, 0.9),
              "right_shoulder" := Keypoint(0.6, 0.35, 0.0, 0.9)]
    ensures a.angles == map["shoulder_tilt" := 0.0]
    ensures a.symmetry == map["shoulders" := 1.0]
    ensures a.symmetry == Pose.DeriveSymmetry(a.keypoints)
    ensures a.angles["shoulder_tilt"] == (a.keypoints["right_shoulder"].y - a.keypoints["left_shoulder"].y) * 10.0
    ensures a.frameQuality == 0.95 && a.timestamp == timestamp
  {
    var kp := map[
      "nose" := Keypoint(0.5, 0.2, 0.0, 0.9),
      "left_shoulder" := Keypoint(0.4, 0.35, 0.0, 0.9),
      "right_shoulder" := Keypoint(0.6, 0.35, 0.0, 0.9)
    ];
    Analysis(
      kp,
      map["shoulder_tilt" := (kp["right_shoulder"].y - kp["left_shoulder"].y) * 10.0],
      map["shoulders" := 1.0],
      timestamp,
      0.95)
  }

  /** The analysis `analyze` returns for the manager's estimator and latest frame. */
  function ExpectedAnalysis(poseReady: bool, frame: Option<Frame>, inference: Inference,
                            num: Pose.Numerics, timestamp: string): Analysis
    requires Pose.Sound(num)
  {
    if poseReady && frame.Some? && inference.Inferred? then
      var kps := Pose.KeypointsOf(inference.detection);
      Analysis(kps, Pose.DeriveAngles(kps, num), Pose.DeriveSymmetry(kps), timestamp,
               Pose.QualityOf(inference.detection))
    else
      FallbackAnalysis(timestamp)
  }

  /** Two analyses of the same camera state differ at most in their timestamp. */
  lemma AnalysisIgnoresClock(poseReady: bool, frame: Option<Frame>, inference: Inference,
                             num: Pose.Numerics, t1: string, t2: string)
    requires Pose.Sound(num)
    ensures var a1, a2 := ExpectedAnalysis(poseReady, frame, inference, num, t1),
                          ExpectedAnalysis(poseReady, frame, inference, num, t2);
            a1.keypoints == a2.keypoints && a1.angles == a2.angles && a1.symmetry == a2.symmetry &&
            a1.frameQuality == a2.frameQuality && a1.timestamp == t1 && a2.timestamp == t2
  {
  }

  /**
   * A well-formed posture analysis: keypoints named from the landmark table with
   * visibilities in [0,1], every angle in [0,180] degrees, the one shoulder
   * symmetry score in [0,1] and a frame quality in [0,1].
   */
  ghost predicate WellFormed(a: Analysis) {
    && (forall name :: name in a.keypoints ==> name in Pose.LandmarkNames)
    && (forall name :: name in a.keypoints ==> 0.0 <= a.keypoints[name].visibility <= 1.0)
    && (forall j :: j in a.angles ==> 0.0 <= a.angles[j] <= 180.0)
    && a.symmetry.Keys == {"shoulders"}
    && 0.0 <= a.symmetry["shoulders"] <= 1.0
    && 0.0 <= a.frameQuality <= 1.0
  }

  /** The estimator's analysis of a detection with valid visibilities is well formed. */
  lemma DetectedWellFormed(d: Pose.Detection, num: Pose.Numerics, timestamp: string)
    requires Pose.Sound(num) && Pose.VisibilitiesValid(d)
    ensures var kps := Pose.KeypointsOf(d);
            WellFormed(Analysis(kps, Pose.DeriveAngles(kps, num), Pose.DeriveSymmetry(kps), timestamp, Pose.QualityOf(d)))
  {
    var kps := Pose.KeypointsOf(d);
    Pose.QualityInUnitRange(d);
    if d.Some? {
      var lms := d.value;
      var n := Pose.NamedCount(lms);
      forall name | name in kps
        ensures name in Pose.LandmarkNames && 0.0 <= kps[name].visibility <= 1.0
      {
        var i :| 0 <= i < n && Pose.LandmarkNames[i] == name;
        assert kps[name] == Pose.ToKeypoint(lms[i]);
      }
    }
  }

  /** The fallback analysis is well formed: its three keypoints are table names. */
  lemma FallbackWellFormed(timestamp: string)
    ensures WellFormed(FallbackAnalysis(timestamp))
  {
    assert Pose.LandmarkNames[0] == "nose";
    assert Pose.LandmarkNames[11] == "left_shoulder";
    assert Pose.LandmarkNames[12] == "right_shoulder";
  }

  /** Whatever path `analyze` takes, the caller receives a well-formed analysis. */
  lemma AnalysisWellFormed(poseReady: bool, frame: Option<Frame>, inference: Inference,
                           num: Pose.Numerics, timestamp: string)
    requires Pose.Sound(num)
    requires inference.Inferred? ==> Pose.VisibilitiesValid(inference.detection)
    ensures WellFormed(ExpectedAnalysis(poseReady, frame, inference, num, timestamp))
  {
    if poseReady && frame.Some? && inference.Inferred? {
      DetectedWellFormed(inference.detection, num, timestamp);
    } else {
      FallbackWellFormed(timestamp);
    }
  }

  class CameraManager {
    const width: nat := 640
    const height: nat := 480
    const fps: nat := 10
    /** Whether OpenCV imported at module load. */
    const cv2Present: bool
    /** Whether the pose estimator is wired in. */
    const poseReady: bool

    var streaming: bool
    var cap: Option<Capture>
    var lastFrame: Option<Frame>
    ghost var loop: LoopKind
    ghost var spawned: nat
    ghost var steps: nat

    /** The object invariant that start, stop and the loop steps keep. */
    ghost predicate Valid()
      reads this
    {
      && (streaming <==> loop != NoLoop)
      && (loop == CaptureLoop ==> cap == Some(Capture(0, width, height, fps)) && cv2Present)
      && (loop != CaptureLoop ==> cap.None?)
      && (lastFrame.None? <==> steps == 0)
      && (lastFrame.Some? && lastFrame.value.content.Fill? ==>
            lastFrame.value.height == height && lastFrame.value.width == width && lastFrame.value.channels == 3)
    }

    /** `CameraManager()`, with the estimator brought up by the guarded rule. */
    constructor (cv2Present: bool, poseImports: bool, mediapipePresent: bool)
      ensures Valid()
      ensures this.cv2Present == cv2Present
      ensures this.poseReady == (PoseInitGuarded(poseImports, mediapipePresent) == PoseReady)
      ensures !streaming && cap.None? && lastFrame.None?
      ensures loop == NoLoop && spawned == 0 && steps == 0
    {
      this.cv2Present := cv2Present;
      this.poseReady := PoseInitGuarded(poseImports, mediapipePresent) == PoseReady;
      streaming := false;
      cap := None;
      lastFrame := None;
      loop := NoLoop;
      spawned := 0;
      steps := 0;
    }

    /**
     * `start()`. `deviceOpens` is what `VideoCapture(0).isOpened()` would answer;
     * it is consulted only when OpenCV is present.
     */
    method Start(deviceOpens: bool) returns (ok: bool, message: string)
      requires Valid()
      modifies this
      ensures Valid()
      ensures ok && streaming
      ensures lastFrame == old(lastFrame) && steps == old(steps)
      ensures old(streaming) ==>
                message == "Camera already running" && unchanged(this)
      ensures !old(streaming) && !cv2Present ==>
                message == "Camera started in stub mode" && cap.None? &&
                loop == StubLoop && spawned == old(spawned) + 1
      ensures !old(streaming) && cv2Present && !deviceOpens ==>
                message == "Camera fallback to stub (no device)" && cap.None? &&
                loop == StubLoop && spawned == old(spawned) + 1 && Status().backend == "opencv"
      ensures !old(streaming) && cv2Present && deviceOpens ==>
                message == "Camera started" && cap == Some(Capture(0, 640, 480, 10)) &&
                loop == CaptureLoop && spawned == old(spawned) + 1
    {
      if streaming {
        return true, "Camera already running";
      }
      if !cv2Present {
        streaming := true;
        loop, spawned := StubLoop, spawned + 1;
        return true, "Camera started in stub mode";
      }
      if !deviceOpens {
        streaming := true;
        loop, spawned := StubLoop, spawned + 1;
        return true, "Camera fallback to stub (no device)";
      }
      cap := Some(Capture(0, width, height, fps));
      streaming := true;
      loop, spawned := CaptureLoop, spawned + 1;
      return true, "Camera started";
    }

    /** `stop()`: the running loop sees the cleared flag and ends. */
    method Stop() returns (ok: bool, message: string)
      requires Valid()
      modifies this
      ensures Valid()
      ensures ok && !streaming && cap.None?
      ensures lastFrame == old(lastFrame) && steps == old(steps) && spawned == old(spawned)
      ensures !old(streaming) ==> message == "Camera already stopped" && unchanged(this)
      ensures old(streaming) ==> message == "Camera stopped" && loop == NoLoop
    {
      if !streaming {
        return true, "Camera already stopped";
      }
      streaming := false;
      loop := NoLoop;
      if cap.Some? && cv2Present {
        cap := None;
      }
      return true, "Camera stopped";
    }

    /** `status()`: the backend label says whether OpenCV is present, not whether a device is open. */
    function Status(): (s: StatusReport)
      reads this
      ensures s.streaming == streaming
      ensures s.width == 640 && s.height == 480 && s.fps == 10
      ensures s.backend == "opencv" <==> cv2Present
      ensures s.backend == "stub" <==> !cv2Present
    {
      StatusReport(streaming, width, height, fps, if cv2Present then "opencv" else "stub")
    }

    /** `get_frame()`: nothing until a loop has produced a frame. */
    function GetFrame(): (f: Option<Frame>)
      reads this
      requires Valid()
      ensures f.None? <==> steps == 0
    {
      lastFrame
    }

    /** `_solid_frame(bgr)`: a frame of the configured size filled with one colour. */
    function SolidFrame(color: Bgr): (f: Frame)
      ensures f.height == 480 && f.width == 640 && f.channels == 3
      ensures f.content == Fill(color, None)
    {
      Frame(height, width, 3, Fill(color, None))
    }

    /**
     * One iteration of `_loop_capture`: while streaming, store the frame the
     * device read, or a solid white frame when the read fails.
     */
    method CaptureStep(read: ReadResult) returns (running: bool)
      requires Valid()
      requires streaming ==> loop == CaptureLoop
      modifies this`lastFrame, this`steps
      ensures Valid()
      ensures running == streaming
      ensures !streaming ==> lastFrame == old(lastFrame) && steps == old(steps)
      ensures streaming ==> steps == old(steps) + 1
      ensures streaming && read.ReadFrame? ==> lastFrame == Some(Frame(read.height, read.width, 3, Captured(read.pixels)))
      ensures streaming && read.ReadFailed? ==> lastFrame == Some(SolidFrame(White))
    {
      if !streaming {
        return false;
      }
      match read {
        case ReadFrame(h, w, pixels) =>
          lastFrame := Some(Frame(h, w, 3, Captured(pixels)));
        case ReadFailed =>
          lastFrame := Some(SolidFrame(White));
      }
      steps := steps + 1;
      return true;
    }

    /**
     * One iteration of `_loop_stub`: while streaming, store a dark grey frame, with
     * the "STUB STREAM" text drawn on it when OpenCV is present.
     */
    method StubStep() returns (running: bool)
      requires Valid()
      requires streaming ==> loop == StubLoop
      modifies this`lastFrame, this`steps
      ensures Valid()
      ensures running == streaming
      ensures !streaming ==> lastFrame == old(lastFrame) && steps == old(steps)
      ensures streaming ==> steps == old(steps) + 1
      ensures streaming ==> lastFrame == Some(Frame(480, 640, 3, Fill(StubGrey, if cv2Present then Some(StubLabel) else None)))
    {
      if !streaming {
        return false;
      }
      var frame := SolidFrame(StubGrey);
      if cv2Present {
        frame := frame.(content := Fill(StubGrey, Some(StubLabel)));
      }
      lastFrame := Some(frame);
      steps := steps + 1;
      return true;
    }

    /**
     * `analyze()`: run the estimator on the latest frame when both exist;
     * on any estimator failure, or without them, return the fallback analysis.
     */
    method Analyze(inference: Inference, num: Pose.Numerics, timestamp: string) returns (a: Analysis)
      requires Pose.Sound(num)
      ensures a == ExpectedAnalysis(poseReady, lastFrame, inference, num, timestamp)
      ensures !poseReady || lastFrame.None? || inference.InferenceFailed? ==> a == FallbackAnalysis(timestamp)
    {
      if poseReady && lastFrame.Some? {
        match inference {
          case Inferred(detection) =>
            var kps, quality := Pose.Process(detection);
            var angles := Pose.DeriveAngles(kps, num);
            var symmetry := Pose.DeriveSymmetry(kps);
            return Analysis(kps, angles, symmetry, timestamp, quality);
          case InferenceFailed =>
        }
      }
      a := FallbackAnalysis(timestamp);
    }
  }

  /** Two starts in a row launch one acquisition loop; the second reports that the camera is already running. */
  method StartTwice(cv2Present: bool, deviceOpens: bool) returns (second: string, status: StatusReport, ghost loops: nat)
    ensures second == "Camera already running"
    ensures status.streaming
    ensures loops == 1
  {
    var manager := new CameraManager(cv2Present, true, true);
    var ok, first := manager.Start(deviceOpens);
    ok, second := manager.Start(deviceOpens);
    loops := manager.spawned;
    status := manager.Status();
  }

  /** After start then stop the camera is not streaming and holds no device. */
  method StartThenStop(cv2Present: bool, deviceOpens: bool) returns (message: string, status: StatusReport)
    ensures message == "Camera stopped"
    ensures !status.streaming
  {
    var manager := new CameraManager(cv2Present, true, true);
    var ok, first := manager.Start(deviceOpens);
    ok, message := manager.Stop();
    assert manager.cap.None?;
    status := manager.Status();
  }
}
