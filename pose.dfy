/**
 * Pose estimation and posture derivation (app/services/pose.py).
 *
 * MediaPipe's inference is an input here: `Detection` is what the estimator
 * reports for one frame. The vector norm and `degrees(arccos(.))` are oracles
 * with the ranges the numeric library guarantees.
 */
module Pose {
  import opened Wrappers
  import opened Schemas

  /** The 33 MediaPipe Pose landmark names, in landmark-index order. */
  const LandmarkNames: seq<string> := [
    "nose", "left_eye_inner", "left_eye", "left_eye_outer", "right_eye_inner",
    "right_eye", "right_eye_outer", "left_ear", "right_ear", "mouth_left",
    "mouth_right", "left_shoulder", "right_shoulder", "left_elbow", "right_elbow",
    "left_wrist", "right_wrist", "left_pinky", "right_pinky", "left_index",
    "right_index", "left_thumb", "right_thumb", "left_hip", "right_hip",
    "left_knee", "right_knee", "left_ankle", "right_ankle", "left_heel",
    "right_heel", "left_foot_index", "right_foot_index"
  ]

  /** No name occurs twice. */
  predicate Distinct(names: seq<string>) {
    forall i, j :: 0 <= i < j < |names| ==> names[i] != names[j]
  }

  // Distinctness of the name table, proved a few rows at a time.
  lemma NamesDistinctRows0To2()
    ensures forall i, j :: 0 <= i < 2 && i < j < |LandmarkNames| ==> LandmarkNames[i] != LandmarkNames[j]
  {
  }

  lemma NamesDistinctRows2To4()
    ensures forall i, j :: 2 <= i < 4 && i < j < |LandmarkNames| ==> LandmarkNames[i] != LandmarkNames[j]
  {
  }

  lemma NamesDistinctRows4To6()
    ensures forall i, j :: 4 <= i < 6 && i < j < |LandmarkNames| ==> LandmarkNames[i] != LandmarkNames[j]
  {
  }

  lemma NamesDistinctRows6To12()
    ensures forall i, j :: 6 <= i < 12 && i < j < |LandmarkNames| ==> LandmarkNames[i] != LandmarkNames[j]
  {
  }

  lemma NamesDistinctRows12To18()
    ensures forall i, j :: 12 <= i < 18 && i < j < |LandmarkNames| ==> LandmarkNames[i] != LandmarkNames[j]
  {
  }

  lemma NamesDistinctRows18To24()
    ensures forall i, j :: 18 <= i < 24 && i < j < |LandmarkNames| ==> LandmarkNames[i] != LandmarkNames[j]
  {
  }

  lemma NamesDistinctRows24To33()
    ensures forall i, j :: 24 <= i < 33 && i < j < |LandmarkNames| ==> LandmarkNames[i] != LandmarkNames[j]
  {
  }

  lemma LandmarkNamesDistinct()
    ensures |LandmarkNames| == 33 && Distinct(LandmarkNames)
  {
    NamesDistinctRows0To2();
    NamesDistinctRows2To4();
    NamesDistinctRows4To6();
    NamesDistinctRows6To12();
    NamesDistinctRows12To18();
    NamesDistinctRows18To24();
    NamesDistinctRows24To33();
  }

  /** One landmark as the estimator reports it. */
  datatype Landmark = Landmark(x: real, y: real, z: real, visibility: real)

  /** `results.pose_landmarks`: no pose found, or the landmark list in index order. */
  type Detection = Option<seq<Landmark>>

  function ToKeypoint(lm: Landmark): Keypoint {
    Keypoint(lm.x, lm.y, lm.z, lm.visibility)
  }

  function Min(a: nat, b: nat): nat {
    if a <= b then a else b
  }

  /** How many landmarks `process` names: never more than the table holds. */
  function NamedCount(lms: seq<Landmark>): (n: nat)
    ensures n <= |lms| && n <= |LandmarkNames|
    ensures n == |lms| || n == |LandmarkNames|
  {
    Min(|lms|, |LandmarkNames|)
  }

  /** The keypoint set after naming the first `n` landmarks with distinct `names`, entry by entry in order. */
  function NamedKeypoints(lms: seq<Landmark>, names: seq<string>, n: nat): (kps: KeypointSet)
    requires n <= |lms| && n <= |names| && Distinct(names)
    ensures forall i :: 0 <= i < n ==> names[i] in kps && kps[names[i]] == ToKeypoint(lms[i])
    ensures kps.Keys == set i | 0 <= i < n :: names[i]
  {
    if n == 0 then map[]
    else
      var prev := NamedKeypoints(lms, names, n - 1);
      assert (set i | 0 <= i < n :: names[i]) == (set i | 0 <= i < n - 1 :: names[i]) + {names[n - 1]};
      prev[names[n - 1] := ToKeypoint(lms[n - 1])]
  }

  /** The keypoint set `process` returns for a detection. */
  function KeypointsOf(d: Detection): (kps: KeypointSet)
    ensures d.None? ==> kps == map[]
    ensures d.Some? ==> kps.Keys == set i | 0 <= i < NamedCount(d.value) :: LandmarkNames[i]
    ensures d.Some? ==> forall i :: 0 <= i < NamedCount(d.value) ==> kps[LandmarkNames[i]] == ToKeypoint(d.value[i])
  {
    match d
    case None => map[]
    case Some(lms) =>
      LandmarkNamesDistinct();
      NamedKeypoints(lms, LandmarkNames, NamedCount(lms))
  }

  /** Sum of the visibilities, accumulated left to right. */
  function VisibilitySum(lms: seq<Landmark>): real {
    if lms == [] then 0.0 else VisibilitySum(lms[..|lms| - 1]) + lms[|lms| - 1].visibility
  }

  /** The frame quality `process` returns: the mean visibility of the named landmarks, 0 if none. */
  function QualityOf(d: Detection): real {
    match d
    case None => 0.0
    case Some(lms) =>
      var n := NamedCount(lms);
      if n == 0 then 0.0 else VisibilitySum(lms[..n]) / n as real
  }

  /** Every reported visibility is a confidence in [0,1]. */
  predicate VisibilitiesValid(d: Detection) {
    d.Some? ==> forall i :: 0 <= i < |d.value| ==> 0.0 <= d.value[i].visibility <= 1.0
  }

  lemma {:induction false} VisibilitySumBounds(lms: seq<Landmark>)
    requires forall i :: 0 <= i < |lms| ==> 0.0 <= lms[i].visibility <= 1.0
    ensures 0.0 <= VisibilitySum(lms) <= |lms| as real
  {
    if lms != [] {
      VisibilitySumBounds(lms[..|lms| - 1]);
    }
  }

  lemma MeanAtMostOne(s: real, n: real)
    requires 0.0 <= s <= n && 0.0 < n
    ensures 0.0 <= s / n <= 1.0
  {
    var q := s / n;
    assert q * n == s;
    assert (1.0 - q) * n == n - s;
  }

  /** The mean of confidences in [0,1] is itself in [0,1]; with nothing detected it is exactly 0. */
  lemma QualityInUnitRange(d: Detection)
    requires VisibilitiesValid(d)
    ensures 0.0 <= QualityOf(d) <= 1.0
    ensures (d.None? || d.value == []) ==> QualityOf(d) == 0.0
  {
    if d.Some? {
      var lms := d.value;
      var n := NamedCount(lms);
      if n != 0 {
        VisibilitySumBounds(lms[..n]);
        var s := VisibilitySum(lms[..n]);
        assert 0.0 <= s <= n as real;
        MeanAtMostOne(s, n as real);
      }
    }
  }

  /** The loop of `process`: name the first `count` landmarks from `names` and sum their visibilities. */
  method NameLandmarks(lms: seq<Landmark>, names: seq<string>, count: nat) returns (keypoints: KeypointSet, sum: real)
    requires count <= |lms| && count <= |names| && Distinct(names)
    ensures keypoints == NamedKeypoints(lms, names, count)
    ensures sum == VisibilitySum(lms[..count])
  {
    keypoints := map[];
    sum := 0.0;
    for i := 0 to count
      invariant keypoints == NamedKeypoints(lms, names, i)
      invariant sum == VisibilitySum(lms[..i])
    {
      keypoints := keypoints[names[i] := ToKeypoint(lms[i])];
      assert lms[..i + 1][..i] == lms[..i];
      sum := sum + lms[i].visibility;
    }
  }

  /** `PoseEstimator.process` after inference: name the landmarks and average their visibility. */
  method Process(detection: Detection) returns (keypoints: KeypointSet, quality: real)
    ensures keypoints == KeypointsOf(detection)
    ensures quality == QualityOf(detection)
  {
    keypoints := map[];
    quality := 0.0;
    if detection.Some? {
      var lms := detection.value;
      var count := NamedCount(lms);
      LandmarkNamesDistinct();
      keypoints, quality := NameLandmarks(lms, LandmarkNames, count);
      if count != 0 {
        quality := quality / count as real;
      }
    }
  }

  /**
   * The floating-point library the derivations call: the square root inside
   * `np.linalg.norm`, and `np.degrees(np.arccos(.))`.
   */
  datatype Numerics = Numerics(sqrt: real -> real, arccosDegrees: real -> real)

  /** The ranges the library guarantees: square roots are never negative, and on [-1,1] arccos is in [0,180] degrees. */
  ghost predicate Sound(num: Numerics) {
    && (forall v :: 0.0 <= num.sqrt(v))
    && (forall v :: -1.0 <= v <= 1.0 ==> 0.0 <= num.arccosDegrees(v) <= 180.0)
  }

  /** `np.clip(v, lo, hi)`. */
  function Clip(v: real, lo: real, hi: real): (r: real)
    requires lo <= hi
    ensures lo <= r <= hi
    ensures lo <= v <= hi ==> r == v
    ensures v < lo ==> r == lo
    ensures hi < v ==> r == hi
  {
    if v < lo then lo else if hi < v then hi else v
  }

  function Abs(v: real): (r: real)
    ensures 0.0 <= r && (r == v || r == -v)
  {
    if v < 0.0 then -v else v
  }

  /** Guard added to the denominator against zero-length limbs. */
  const Epsilon: real := 0.000001

  /** The clipped cosine of the angle at `b` between `b->a` and `b->c`, in the image plane. */
  function ClippedCosine(a: Keypoint, b: Keypoint, c: Keypoint, num: Numerics): (v: real)
    requires Sound(num)
    ensures -1.0 <= v <= 1.0
  {
    var bax, bay := a.x - b.x, a.y - b.y;
    var bcx, bcy := c.x - b.x, c.y - b.y;
    var dot := bax * bcx + bay * bcy;
    var na, nc := num.sqrt(bax * bax + bay * bay), num.sqrt(bcx * bcx + bcy * bcy);
    assert 0.0 <= na && 0.0 <= nc;
    assert 0.0 <= na * nc;
    var den := na * nc + Epsilon;
    Clip(dot / den, -1.0, 1.0)
  }

  /** The joint angle at `b`, in degrees; exactly 0.0 when any of the three landmarks is missing. */
  function Angle(kps: KeypointSet, a: string, b: string, c: string, num: Numerics): (deg: real)
    requires Sound(num)
    ensures a !in kps || b !in kps || c !in kps ==> deg == 0.0
    ensures a in kps && b in kps && c in kps ==> deg == num.arccosDegrees(ClippedCosine(kps[a], kps[b], kps[c], num))
    ensures 0.0 <= deg <= 180.0
  {
    if a !in kps || b !in kps || c !in kps then 0.0
    else
      var v := ClippedCosine(kps[a], kps[b], kps[c], num);
      num.arccosDegrees(v)
  }

  /** The angle at `b` does not depend on which outer landmark is named first. */
  lemma AngleSymmetric(kps: KeypointSet, a: string, b: string, c: string, num: Numerics)
    requires Sound(num)
    ensures Angle(kps, a, b, c, num) == Angle(kps, c, b, a, num)
  {
    if a in kps && b in kps && c in kps {
      var pa, pb, pc := kps[a], kps[b], kps[c];
      var bax, bay := pa.x - pb.x, pa.y - pb.y;
      var bcx, bcy := pc.x - pb.x, pc.y - pb.y;
      var na, nc := num.sqrt(bax * bax + bay * bay), num.sqrt(bcx * bcx + bcy * bcy);
      assert bax * bcx + bay * bcy == bcx * bax + bcy * bay;
      assert na * nc == nc * na;
      assert ClippedCosine(pa, pb, pc, num) == ClippedCosine(pc, pb, pa, num);
    }
  }

  /** The fixed set of joints whose angle is reported. */
  const AngleJoints: set<string> := {"left_elbow", "right_elbow", "left_knee", "right_knee"}

  /** `derive_angles`: the four limb angles, each in [0,180], each 0.0 when a landmark is missing. */
  function DeriveAngles(kps: KeypointSet, num: Numerics): (r: map<string, real>)
    requires Sound(num)
    ensures r.Keys == AngleJoints
    ensures forall j :: j in r ==> 0.0 <= r[j] <= 180.0
    // The four "missing landmark" clauses are corollaries of the per-joint clauses below and `Angle`'s contract.
    ensures "left_shoulder" !in kps || "left_elbow" !in kps || "left_wrist" !in kps ==> r["left_elbow"] == 0.0
    ensures "right_shoulder" !in kps || "right_elbow" !in kps || "right_wrist" !in kps ==> r["right_elbow"] == 0.0
    ensures "left_hip" !in kps || "left_knee" !in kps || "left_ankle" !in kps ==> r["left_knee"] == 0.0
    ensures "right_hip" !in kps || "right_knee" !in kps || "right_ankle" !in kps ==> r["right_knee"] == 0.0
    ensures r["left_elbow"] == Angle(kps, "left_shoulder", "left_elbow", "left_wrist", num)
    ensures r["right_elbow"] == Angle(kps, "right_shoulder", "right_elbow", "right_wrist", num)
    ensures r["left_knee"] == Angle(kps, "left_hip", "left_knee", "left_ankle", num)
    ensures r["right_knee"] == Angle(kps, "right_hip", "right_knee", "right_ankle", num)
  {
    var le := Angle(kps, "left_shoulder", "left_elbow", "left_wrist", num);
    var re := Angle(kps, "right_shoulder", "right_elbow", "right_wrist", num);
    var lk := Angle(kps, "left_hip", "left_knee", "left_ankle", num);
    var rk := Angle(kps, "right_hip", "right_knee", "right_ankle", num);
    map["left_elbow" := le, "right_elbow" := re, "left_knee" := lk, "right_knee" := rk]
  }

  /** `derive_symmetry`: shoulder level symmetry, clamped to [0,1]; 0.0 when a shoulder is missing. */
  function DeriveSymmetry(kps: KeypointSet): (r: map<string, real>)
    ensures r.Keys == {"shoulders"}
    ensures 0.0 <= r["shoulders"] <= 1.0
    ensures "left_shoulder" !in kps || "right_shoulder" !in kps ==> r["shoulders"] == 0.0
    ensures "left_shoulder" in kps && "right_shoulder" in kps ==>
              var dy := Abs(kps["left_shoulder"].y - kps["right_shoulder"].y);
              r["shoulders"] == if dy <= 1.0 then 1.0 - dy else 0.0
  {
    var val :=
      if "left_shoulder" in kps && "right_shoulder" in kps
      then 1.0 - Abs(kps["left_shoulder"].y - kps["right_shoulder"].y)
      else 0.0;
    map["shoulders" := Clip(val, 0.0, 1.0)]
  }
}
