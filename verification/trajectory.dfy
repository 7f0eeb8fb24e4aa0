/**
 * main/Trajectory.cpp: a fixed-capacity waypoint array that accepts only in-limit poses with
 * increasing times, and a time lookup that interpolates between neighbouring waypoints and
 * clamps the result to the pose limits.
 */
module Trajectory {
  import opened Config
  import opened Utils
  import opened Kinematics
  import opened Waypoints
  import opened Wrappers

  /** Why `addWaypoint` refuses a waypoint, in the order the source checks. */
  datatype Rejection = PoseOutOfBounds | TimeNotIncreasing | Full

  function Rejects(wps: seq<Waypoint>, pose: Pose, time: nat): (r: Option<Rejection>)
    ensures r == None <==> WithinLimits(pose) && (|wps| == 0 || wps[|wps| - 1].time < time) && |wps| < MaxPoints
    ensures r == Some(PoseOutOfBounds) <==> !WithinLimits(pose)
  {
    if !WithinLimits(pose) then Some(PoseOutOfBounds)
    else if |wps| > 0 && time <= wps[|wps| - 1].time then Some(TimeNotIncreasing)
    else if |wps| >= MaxPoints then Some(Full)
    else None
  }

  /** The pose `getPose` returns for the stored waypoints `wps` at time `now`. */
  function PoseAt(wps: seq<Waypoint>, now: nat): (p: Pose)
    ensures |wps| == 0 ==> p == ZeroPose
    ensures |wps| > 0 && now <= wps[0].time ==> p == wps[0].pose
    ensures Locate(wps, now).Between? ==> WithinLimits(p)
  {
    match Locate(wps, now)
    case Empty => ZeroPose
    case BeforeFirst => wps[0].pose
    case Between(k) => ClampPose(SegmentPose(wps, k, now))
    case AfterLast => wps[|wps| - 1].pose
  }

  /** At or after the last waypoint's time the last pose is held. */
  lemma {:induction false} PoseAtAfterLast(wps: seq<Waypoint>, now: nat)
    requires StrictlyIncreasing(wps) && |wps| > 0 && now >= wps[|wps| - 1].time
    ensures PoseAt(wps, now) == wps[|wps| - 1].pose
  {
    if |wps| > 1 {
      LocateAfterLast(wps, now);
    }
  }

  /** Every pose returned lies within the limits when every stored pose does. */
  lemma PoseAtWithinLimits(wps: seq<Waypoint>, now: nat)
    requires forall i :: 0 <= i < |wps| ==> WithinLimits(wps[i].pose)
    ensures WithinLimits(PoseAt(wps, now))
  {
  }

  class Trajectory {
    const points: array<Waypoint>
    var count: nat

    ghost predicate Valid()
      reads this, points
    {
      && points.Length == MaxPoints
      && count <= MaxPoints
      && StrictlyIncreasing(points[..count])
      && forall i :: 0 <= i < count ==> WithinLimits(points[i].pose)
    }

    /** The stored waypoints, oldest first. */
    ghost function Stored(): seq<Waypoint>
      reads this, points
      requires Valid()
    {
      points[..count]
    }

    constructor ()
      ensures Valid() && Stored() == [] && fresh(points)
    {
      points := new Waypoint[MaxPoints];
      count := 0;
    }

    /** Append a waypoint if its pose is within limits, its time is later than the last one and there is room. */
    method AddWaypoint(pose: Pose, time: nat) returns (ok: bool)
      requires Valid()
      modifies this, points
      ensures Valid()
      ensures ok <==> Rejects(old(Stored()), pose, time) == None
      ensures Stored() == if ok then old(Stored()) + [Waypoint(pose, time)] else old(Stored())
    {
      if !WithinLimits(pose) {
        return false;
      } else if count > 0 && time <= points[count - 1].time {
        return false;
      } else if count >= MaxPoints {
        return false;
      }
      points[count] := Waypoint(pose, time);
      count := count + 1;
      ok := true;
    }

    /** The pose at time `now`: interpolated on the bracketing segment and clamped, or an end pose. */
    method GetPose(now: nat) returns (p: Pose)
      requires Valid()
      ensures p == PoseAt(Stored(), now)
      ensures WithinLimits(p)
    {
      if count == 0 {
        return ZeroPose;
      }
      if now <= points[0].time {
        return points[0].pose;
      }
      ghost var wps := points[..count];
      var i := 1;
      while i < count
        invariant 1 <= i <= count
        invariant FirstLater(wps, now, 1) == FirstLater(wps, now, i)
        invariant forall j :: 0 <= j < i ==> points[j].time <= now
      {
        if now < points[i].time {
          var t := Fraction(points[i - 1].time, points[i].time, now);
          var a, b := points[i - 1].pose, points[i].pose;
          var interpolated := LerpPose(a, b, t);
          interpolated := ClampPose(interpolated);
          // the source clamps y, z, roll, pitch and yaw a second time
          interpolated := interpolated.(y := Clamp(interpolated.y, MinY, MaxY),
                                        z := Clamp(interpolated.z, MinZ, MaxZ),
                                        roll := Clamp(interpolated.roll, MinRoll, MaxRoll),
                                        pitch := Clamp(interpolated.pitch, MinPitch, MaxPitch),
                                        yaw := Clamp(interpolated.yaw, MinYaw, MaxYaw));
          return interpolated;
        }
        i := i + 1;
      }
      return points[count - 1].pose;
    }
  }
}
