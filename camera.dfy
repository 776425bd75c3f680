/** The posture score of js/camera.js (`calculatePostureScore`): up to three alignment
    checks on the shoulders (keypoints 5 and 6) and hips (11 and 12) of one detected pose,
    each taken only when both of its keypoints are confident enough and its divisor is
    not zero, and the rounded mean of the checks taken. Coordinates and confidences are
    reals. */
module Camera {
  import opened JsBase

  datatype Keypoint = Keypoint(x: real, y: real, score: real)

  const LeftShoulder: nat := 5
  const RightShoulder: nat := 6
  const LeftHip: nat := 11
  const RightHip: nat := 12

  /** A keypoint takes part in scoring only above this confidence. */
  const MinConfidence: real := 0.5

  const ShoulderWeight: real := 40.0
  const BackWeight: real := 35.0
  const HipWeight: real := 25.0
  const ShoulderCutoff: real := 0.2
  const BackCutoff: real := 0.3
  const HipCutoff: real := 0.2

  /** One check on keypoints `a` and `b`: None when it is skipped, otherwise
      `weight * max(0, 1 - (deviation / distance) / cutoff)`. */
  function Check(a: Keypoint, b: Keypoint, deviation: real, distance: real, cutoff: real, weight: real): (c: Option<real>)
    requires cutoff > 0.0 && weight >= 0.0 && deviation >= 0.0
    ensures c.Some? <==> a.score > MinConfidence && b.score > MinConfidence && distance > 0.0
    ensures c.Some? ==> 0.0 <= c.value <= weight
    ensures c.Some? && deviation / distance >= cutoff ==> c.value == 0.0
    ensures c.Some? && deviation == 0.0 ==> c.value == weight
  {
    if a.score > MinConfidence && b.score > MinConfidence then
      if distance > 0.0 then
        var ratio := deviation / distance;
        Some(Max(0.0, 1.0 - ratio / cutoff) * weight)
      else None
    else None
  }

  /** Check 1: the shoulders are level (vertical offset against horizontal distance). */
  function ShoulderCheck(ls: Keypoint, rs: Keypoint): Option<real>
  {
    Check(ls, rs, Abs(ls.y - rs.y), Abs(ls.x - rs.x), ShoulderCutoff, ShoulderWeight)
  }

  /** Check 2: the back is straight (left shoulder over left hip). */
  function BackCheck(ls: Keypoint, lh: Keypoint): Option<real>
  {
    Check(ls, lh, Abs(ls.x - lh.x), Abs(ls.y - lh.y), BackCutoff, BackWeight)
  }

  /** Check 3: the hips are level. */
  function HipCheck(lh: Keypoint, rh: Keypoint): Option<real>
  {
    Check(lh, rh, Abs(lh.y - rh.y), Abs(lh.x - rh.x), HipCutoff, HipWeight)
  }

  function Points(c: Option<real>): real
  {
    match c
    case Some(v) => v
    case None => 0.0
  }

  function Counted(c: Option<real>): nat
  {
    if c.Some? then 1 else 0
  }

  /** calculatePostureScore(pose), as written: the three guarded additions to
      `totalScore` and `checks`, then the rounded quotient, or 0 when no check ran.
      A pose from the detector has 17 keypoints; the source reads indices 5 to 12. */
  function CalculatePostureScore(keypoints: seq<Keypoint>): (r: int)
    requires |keypoints| > RightHip
    ensures 0 <= r <= 40
    ensures Evaluated(keypoints) == [] ==> r == 0
  {
    var ls := keypoints[LeftShoulder];
    var rs := keypoints[RightShoulder];
    var lh := keypoints[LeftHip];
    var rh := keypoints[RightHip];
    var c1 := ShoulderCheck(ls, rs);
    var c2 := BackCheck(ls, lh);
    var c3 := HipCheck(lh, rh);
    var totalScore := Points(c1) + Points(c2) + Points(c3);
    var checks := Counted(c1) + Counted(c2) + Counted(c3);
    if checks > 0 then
      assert 0.0 <= totalScore <= 40.0 * checks as real;
      Round(totalScore / checks as real)
    else 0
  }

  /** A reference definition: the contributions of the checks that ran, in order. */
  function Evaluated(keypoints: seq<Keypoint>): seq<real>
    requires |keypoints| > RightHip
  {
    var c1 := ShoulderCheck(keypoints[LeftShoulder], keypoints[RightShoulder]);
    var c2 := BackCheck(keypoints[LeftShoulder], keypoints[LeftHip]);
    var c3 := HipCheck(keypoints[LeftHip], keypoints[RightHip]);
    (if c1.Some? then [c1.value] else []) + (if c2.Some? then [c2.value] else [])
      + (if c3.Some? then [c3.value] else [])
  }

  lemma SumOfUpToThree(a: Option<real>, b: Option<real>, c: Option<real>)
    ensures var xs := (if a.Some? then [a.value] else []) + (if b.Some? then [b.value] else [])
                      + (if c.Some? then [c.value] else []);
      |xs| == Counted(a) + Counted(b) + Counted(c) && Sum(xs) == Points(a) + Points(b) + Points(c)
  {
    var xa := if a.Some? then [a.value] else [];
    var xb := if b.Some? then [b.value] else [];
    var xc := if c.Some? then [c.value] else [];
    SumAppend(xa, xb);
    SumAppend(xa + xb, xc);
    assert Sum(xa) == Points(a) && Sum(xb) == Points(b) && Sum(xc) == Points(c);
  }

  /** The score is the rounded mean of the contributions of the checks that ran (a
      check that ran and scored 0 still counts), and 0 when none ran. */
  lemma ScoreIsRoundedMean(keypoints: seq<Keypoint>)
    requires |keypoints| > RightHip
    ensures CalculatePostureScore(keypoints) ==
      if Evaluated(keypoints) == [] then 0 else Round(Mean(Evaluated(keypoints)))
  {
    SumOfUpToThree(ShoulderCheck(keypoints[LeftShoulder], keypoints[RightShoulder]),
                   BackCheck(keypoints[LeftShoulder], keypoints[LeftHip]),
                   HipCheck(keypoints[LeftHip], keypoints[RightHip]));
  }

  /** Which checks run: each exactly when both of its keypoints are above 0.5 and its
      divisor is not zero. */
  lemma CheckGates(keypoints: seq<Keypoint>)
    requires |keypoints| > RightHip
    ensures var ls, rs, lh, rh := keypoints[5], keypoints[6], keypoints[11], keypoints[12];
      && (ShoulderCheck(ls, rs).Some? <==> ls.score > 0.5 && rs.score > 0.5 && ls.x != rs.x)
      && (BackCheck(ls, lh).Some? <==> ls.score > 0.5 && lh.score > 0.5 && ls.y != lh.y)
      && (HipCheck(lh, rh).Some? <==> lh.score > 0.5 && rh.score > 0.5 && lh.x != rh.x)
  {
  }

  /** Each check contributes between 0 and its weight (40, 35, 25), and nothing once its
      ratio reaches the cutoff (0.2, 0.3, 0.2). */
  lemma CheckWeights(ls: Keypoint, rs: Keypoint, lh: Keypoint, rh: Keypoint)
    ensures ShoulderCheck(ls, rs).Some? ==> 0.0 <= ShoulderCheck(ls, rs).value <= 40.0
    ensures BackCheck(ls, lh).Some? ==> 0.0 <= BackCheck(ls, lh).value <= 35.0
    ensures HipCheck(lh, rh).Some? ==> 0.0 <= HipCheck(lh, rh).value <= 25.0
    ensures ShoulderCheck(ls, rs).Some? && Abs(ls.y - rs.y) / Abs(ls.x - rs.x) >= 0.2 ==>
      ShoulderCheck(ls, rs) == Some(0.0)
    ensures BackCheck(ls, lh).Some? && Abs(ls.x - lh.x) / Abs(ls.y - lh.y) >= 0.3 ==>
      BackCheck(ls, lh) == Some(0.0)
    ensures HipCheck(lh, rh).Some? && Abs(lh.y - rh.y) / Abs(lh.x - rh.x) >= 0.2 ==>
      HipCheck(lh, rh) == Some(0.0)
  {
  }

  /** Level shoulders with a horizontal gap earn the full 40 for the first check. */
  lemma LevelShouldersFull(ls: Keypoint, rs: Keypoint)
    requires ls.score > 0.5 && rs.score > 0.5 && ls.y == rs.y && ls.x != rs.x
    ensures ShoulderCheck(ls, rs) == Some(40.0)
  {
  }

  /** All three checks ran and the shoulder ratio reached its cutoff: the shoulder check
      adds nothing but still divides by three. */
  lemma ZeroCheckStillCounts(keypoints: seq<Keypoint>)
    requires |keypoints| > RightHip
    requires var ls, rs, lh, rh := keypoints[5], keypoints[6], keypoints[11], keypoints[12];
      ShoulderCheck(ls, rs).Some? && BackCheck(ls, lh).Some? && HipCheck(lh, rh).Some?
      && Abs(ls.y - rs.y) / Abs(ls.x - rs.x) >= 0.2
    ensures CalculatePostureScore(keypoints) ==
      Round((Points(BackCheck(keypoints[5], keypoints[11])) + Points(HipCheck(keypoints[11], keypoints[12]))) / 3.0)
  {
  }

  /** Only keypoints 5, 6, 11 and 12 matter. */
  lemma DependsOnlyOnTorso(p: seq<Keypoint>, q: seq<Keypoint>)
    requires |p| > RightHip && |q| > RightHip
    requires p[5] == q[5] && p[6] == q[6] && p[11] == q[11] && p[12] == q[12]
    ensures CalculatePostureScore(p) == CalculatePostureScore(q)
  {
  }

  // ---------------------------------------------------------------------------
  // The 0-100 scale the documentation promises

  /** A pose with level shoulders, level hips and the left shoulder straight above the
      left hip, every keypoint fully confident. */
  function UprightPose(): (p: seq<Keypoint>)
    ensures |p| == 17
  {
    seq(17, i =>
      if i == RightShoulder then Keypoint(1.0, 0.0, 1.0)
      else if i == LeftHip then Keypoint(0.0, 1.0, 1.0)
      else if i == RightHip then Keypoint(1.0, 1.0, 1.0)
      else Keypoint(0.0, 0.0, 1.0))
  }

  /** As written, every check of the upright pose is perfect (40 + 35 + 25 = 100 points),
      yet the score is 33: dividing by the number of checks caps the scale at 40. */
  lemma UprightPoseScores33()
    ensures CalculatePostureScore(UprightPose()) == 33
  {
    UprightChecks();
    var p := UprightPose();
    var c1 := ShoulderCheck(p[LeftShoulder], p[RightShoulder]);
    var c2 := BackCheck(p[LeftShoulder], p[LeftHip]);
    var c3 := HipCheck(p[LeftHip], p[RightHip]);
    assert Points(c1) + Points(c2) + Points(c3) == 100.0;
    assert Counted(c1) + Counted(c2) + Counted(c3) == 3;
    RoundOfThird();
  }

  lemma RoundOfThird()
    ensures Round(100.0 / 3 as real) == 33
  {
    assert 33.0 <= 100.0 / 3.0 + 0.5 < 34.0;
  }

  /** Each check of the upright pose gives its full weight. */
  lemma UprightChecks()
    ensures var p := UprightPose();
      && ShoulderCheck(p[LeftShoulder], p[RightShoulder]) == Some(ShoulderWeight)
      && BackCheck(p[LeftShoulder], p[LeftHip]) == Some(BackWeight)
      && HipCheck(p[LeftHip], p[RightHip]) == Some(HipWeight)
  {
    var p := UprightPose();
    assert p[LeftShoulder] == Keypoint(0.0, 0.0, 1.0);
    assert p[RightShoulder] == Keypoint(1.0, 0.0, 1.0);
    assert p[LeftHip] == Keypoint(0.0, 1.0, 1.0);
    assert p[RightHip] == Keypoint(1.0, 1.0, 1.0);
  }

  /** The score scaled to the weight of the checks that ran: the points earned as a
      percentage of the points available. */
  function NormalizedPostureScore(keypoints: seq<Keypoint>): (r: int)
    requires |keypoints| > RightHip
    ensures 0 <= r <= 100
  {
    var ls := keypoints[LeftShoulder];
    var rs := keypoints[RightShoulder];
    var lh := keypoints[LeftHip];
    var rh := keypoints[RightHip];
    var c1 := ShoulderCheck(ls, rs);
    var c2 := BackCheck(ls, lh);
    var c3 := HipCheck(lh, rh);
    var earned := Points(c1) + Points(c2) + Points(c3);
    var available := (if c1.Some? then ShoulderWeight else 0.0) + (if c2.Some? then BackWeight else 0.0)
                   + (if c3.Some? then HipWeight else 0.0);
    if available > 0.0 then
      assert 0.0 <= earned <= available;
      assert 0.0 <= 100.0 * earned / available <= 100.0 by {
        assert 100.0 * earned / available * available == 100.0 * earned;
      }
      Round(100.0 * earned / available)
    else 0
  }

  /** On the 0-100 scale the upright pose earns the full 100, and a pose whose checks
      all ran and are all perfect does too. */
  lemma NormalizedPerfectIsFull(keypoints: seq<Keypoint>)
    requires |keypoints| > RightHip
    requires var ls, rs, lh, rh := keypoints[5], keypoints[6], keypoints[11], keypoints[12];
      ShoulderCheck(ls, rs).Some? && BackCheck(ls, lh).Some? && HipCheck(lh, rh).Some?
      && ls.y == rs.y && ls.x == lh.x && lh.y == rh.y
    ensures NormalizedPostureScore(keypoints) == 100
    ensures NormalizedPostureScore(UprightPose()) == 100
  {
    var p := UprightPose();
    assert ShoulderCheck(p[5], p[6]) == Some(40.0);
    assert BackCheck(p[5], p[11]) == Some(35.0);
    assert HipCheck(p[11], p[12]) == Some(25.0);
  }
}
