/**
 * The segment search and linear interpolation shared by both `Trajectory::getPose`
 * variants (main/Trajectory.cpp and the root Trajectory.cpp).
 */
module Waypoints {
  import opened Kinematics
  import opened Utils

  datatype Waypoint = Waypoint(pose: Pose, time: nat)

  /** Stored times strictly increase. */
  ghost predicate StrictlyIncreasing(wps: seq<Waypoint>) {
    forall i, j :: 0 <= i < j < |wps| ==> wps[i].time < wps[j].time
  }

  /**
   * The first index at or after `from` whose time lies strictly after `now`, or |wps| when
   * there is none: where the `for (i = 1; i < count; i++)` scan stops.
   */
  function FirstLater(wps: seq<Waypoint>, now: nat, from: nat): (k: nat)
    requires from <= |wps|
    ensures from <= k <= |wps|
    ensures k < |wps| ==> now < wps[k].time
    ensures forall j :: from <= j < k ==> wps[j].time <= now
    decreases |wps| - from
  {
    if from == |wps| then from
    else if now < wps[from].time then from
    else FirstLater(wps, now, from + 1)
  }

  /** Which of `getPose`'s four exits is taken. */
  datatype Lookup = Empty | BeforeFirst | Between(k: nat) | AfterLast

  function Locate(wps: seq<Waypoint>, now: nat): (l: Lookup)
    ensures l == Empty <==> |wps| == 0
    ensures l == BeforeFirst <==> |wps| > 0 && now <= wps[0].time
    ensures l.Between? ==> 1 <= l.k < |wps| && wps[l.k - 1].time <= now < wps[l.k].time
    ensures l == AfterLast ==> |wps| > 0 && forall j :: 0 <= j < |wps| ==> wps[j].time <= now
  {
    if |wps| == 0 then Empty
    else if now <= wps[0].time then BeforeFirst
    else
      var k := FirstLater(wps, now, 1);
      if k < |wps| then Between(k) else AfterLast
  }

  /** With increasing times, a time at or after the last waypoint is past every segment. */
  lemma {:induction false} LocateAfterLast(wps: seq<Waypoint>, now: nat)
    requires StrictlyIncreasing(wps) && |wps| > 1 && now >= wps[|wps| - 1].time
    ensures Locate(wps, now) == AfterLast
  {
  }

  /** The interpolation parameter `(now - t0) / (t1 - t0)` of a bracketing segment. */
  function Fraction(t0: nat, t1: nat, now: nat): (t: real)
    requires t0 <= now < t1
    ensures 0.0 <= t < 1.0
  {
    (now - t0) as real / (t1 - t0) as real
  }

  function Lerp(a: real, b: real, t: real): real {
    a + t * (b - a)
  }

  /** An interpolated value lies between the two values it interpolates. */
  lemma LerpBetween(a: real, b: real, t: real)
    requires 0.0 <= t <= 1.0
    ensures Min(a, b) <= Lerp(a, b, t) <= Max(a, b)
  {
    var d := b - a;
    var p := t * d;
    assert Lerp(a, b, t) == a + p;
    if d >= 0.0 {
      ProductWithinUnit(t, d);
    } else {
      ProductWithinUnit(t, -d);
      assert t * (-d) == -p;
    }
  }

  lemma ProductWithinUnit(t: real, d: real)
    requires 0.0 <= t <= 1.0 && d >= 0.0
    ensures 0.0 <= t * d <= d
  {
    assert d - t * d == (1.0 - t) * d;
  }

  function LerpPose(a: Pose, b: Pose, t: real): (r: Pose)
    ensures t == 0.0 ==> r == a
    ensures t == 1.0 ==> r == b
  {
    Pose(Lerp(a.x, b.x, t), Lerp(a.y, b.y, t), Lerp(a.z, b.z, t),
         Lerp(a.roll, b.roll, t), Lerp(a.pitch, b.pitch, t), Lerp(a.yaw, b.yaw, t))
  }

  /** The pose interpolated on segment k at time `now`, before any clamping. */
  function SegmentPose(wps: seq<Waypoint>, k: nat, now: nat): (p: Pose)
    requires 1 <= k < |wps| && wps[k - 1].time <= now < wps[k].time
    ensures now == wps[k - 1].time ==> p == wps[k - 1].pose
    ensures WithinLimits(wps[k - 1].pose) && WithinLimits(wps[k].pose) ==> WithinLimits(p)
  {
    var t := Fraction(wps[k - 1].time, wps[k].time, now);
    if WithinLimits(wps[k - 1].pose) && WithinLimits(wps[k].pose) then
      LerpPoseWithinLimits(wps[k - 1].pose, wps[k].pose, t);
      LerpPose(wps[k - 1].pose, wps[k].pose, t)
    else
      LerpPose(wps[k - 1].pose, wps[k].pose, t)
  }

  /** Both poses within the limits imply every pose interpolated between them is too. */
  lemma LerpPoseWithinLimits(a: Pose, b: Pose, t: real)
    requires WithinLimits(a) && WithinLimits(b) && 0.0 <= t <= 1.0
    ensures WithinLimits(LerpPose(a, b, t))
  {
    LerpBetween(a.x, b.x, t);
    LerpBetween(a.y, b.y, t);
    LerpBetween(a.z, b.z, t);
    LerpBetween(a.roll, b.roll, t);
    LerpBetween(a.pitch, b.pitch, t);
    LerpBetween(a.yaw, b.yaw, t);
  }
}
