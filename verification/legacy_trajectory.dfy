/**
 * The root Trajectory.cpp: the earlier waypoint array, which appends while there is room and
 * ignores everything else, and interpolates without clamping.
 */
module LegacyTrajectory {
  import opened Config
  import opened Utils
  import opened Kinematics
  import opened Waypoints
  import MainTrajectory = Trajectory

  /** Each component of `p` lies between the corresponding components of `a` and `b`. */
  predicate BetweenPoses(a: Pose, b: Pose, p: Pose) {
    && Min(a.x, b.x) <= p.x <= Max(a.x, b.x)
    && Min(a.y, b.y) <= p.y <= Max(a.y, b.y)
    && Min(a.z, b.z) <= p.z <= Max(a.z, b.z)
    && Min(a.roll, b.roll) <= p.roll <= Max(a.roll, b.roll)
    && Min(a.pitch, b.pitch) <= p.pitch <= Max(a.pitch, b.pitch)
    && Min(a.yaw, b.yaw) <= p.yaw <= Max(a.yaw, b.yaw)
  }

  /** The pose the root `getPose` returns; stored times need not be ordered. */
  function PoseAt(wps: seq<Waypoint>, now: nat): (p: Pose)
    ensures |wps| == 0 ==> p == ZeroPose
    ensures |wps| > 0 && now <= wps[0].time ==> p == wps[0].pose
    ensures Locate(wps, now) == AfterLast ==> p == wps[|wps| - 1].pose
    ensures Locate(wps, now).Between? ==>
              var k := Locate(wps, now).k; BetweenPoses(wps[k - 1].pose, wps[k].pose, p)
  {
    match Locate(wps, now)
    case Empty => ZeroPose
    case BeforeFirst => wps[0].pose
    case Between(k) =>
      var a, b, t := wps[k - 1].pose, wps[k].pose, Fraction(wps[k - 1].time, wps[k].time, now);
      LerpBetween(a.x, b.x, t);
      LerpBetween(a.y, b.y, t);
      LerpBetween(a.z, b.z, t);
      LerpBetween(a.roll, b.roll, t);
      LerpBetween(a.pitch, b.pitch, t);
      LerpBetween(a.yaw, b.yaw, t);
      SegmentPose(wps, k, now)
    case AfterLast => wps[|wps| - 1].pose
  }

  /** On waypoints that all lie within the limits, the clamping of main/Trajectory.cpp changes nothing. */
  lemma AgreesWithClampedLookup(wps: seq<Waypoint>, now: nat)
    requires forall i :: 0 <= i < |wps| ==> WithinLimits(wps[i].pose)
    ensures MainTrajectory.PoseAt(wps, now) == PoseAt(wps, now)
  {
    match Locate(wps, now)
    case Between(k) =>
      LerpPoseWithinLimits(wps[k - 1].pose, wps[k].pose, Fraction(wps[k - 1].time, wps[k].time, now));
    case _ =>
  }

  class Trajectory {
    const points: array<Waypoint>
    var count: nat

    ghost predicate Valid()
      reads this
    {
      points.Length == MaxPoints && count <= MaxPoints
    }

    ghost function Stored(): seq<Waypoint>
      reads this, points
      requires Valid()
    {
      points[..count]
    }

    constructor ()
      ensures Valid() && Stored() == [] && fresh(points)
    {
      points := new Waypoint[MaxPoints];
      count := 0;
    }

    /** Append while there is room; a call on a full trajectory does nothing. */
    method AddWaypoint(pose: Pose, time: nat)
      requires Valid()
      modifies this, points
      ensures Valid()
      ensures Stored() == if old(count) < MaxPoints then old(Stored()) + [Waypoint(pose, time)] else old(Stored())
    {
      if count < MaxPoints {
        points[count] := Waypoint(pose, time);
        count := count + 1;
      }
    }

    method GetPose(now: nat) returns (p: Pose)
      requires Valid()
      ensures p == PoseAt(Stored(), now)
    {
      if count == 0 {
        return ZeroPose;
      }
      if now <= points[0].time {
        return points[0].pose;
      }
      ghost var wps := points[..count];
      var i := 1;
      while i < count
        invariant 1 <= i <= count
        invariant FirstLater(wps, now, 1) == FirstLater(wps, now, i)
        invariant forall j :: 0 <= j < i ==> points[j].time <= now
      {
        if now < points[i].time {
          var t := Fraction(points[i - 1].time, points[i].time, now);
          var a, b := points[i - 1].pose, points[i].pose;
          return LerpPose(a, b, t);
        }
        i := i + 1;
      }
      return points[count - 1].pose;
    }
  }
}
