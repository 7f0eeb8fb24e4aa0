/**
 * The pose record of main/Kinematics.h and the pose limits of main/Config.h.
 * Inverse kinematics itself (trigonometry and square roots in main/Kinematics.cpp) is
 * not part of this model: callers pass it in as a function from a pose to six lengths.
 */
module Kinematics {
  import opened Config
  import opened Utils

  datatype Pose = Pose(x: real, y: real, z: real, roll: real, pitch: real, yaw: real)

  const ZeroPose: Pose := Pose(0.0, 0.0, 0.0, 0.0, 0.0, 0.0)

  /** Every component lies within its MIN_* / MAX_* limit. */
  predicate WithinLimits(p: Pose) {
    && MinX <= p.x <= MaxX
    && MinY <= p.y <= MaxY
    && MinZ <= p.z <= MaxZ
    && MinRoll <= p.roll <= MaxRoll
    && MinPitch <= p.pitch <= MaxPitch
    && MinYaw <= p.yaw <= MaxYaw
  }

  /** Component-wise clamp of a pose to the limits. */
  function ClampPose(p: Pose): (r: Pose)
    ensures WithinLimits(r)
    ensures WithinLimits(p) ==> r == p
  {
    Pose(Clamp(p.x, MinX, MaxX), Clamp(p.y, MinY, MaxY), Clamp(p.z, MinZ, MaxZ),
         Clamp(p.roll, MinRoll, MaxRoll), Clamp(p.pitch, MinPitch, MaxPitch), Clamp(p.yaw, MinYaw, MaxYaw))
  }

  /** The inverse-kinematics collaborator yields one length per actuator. */
  predicate SixLengths(inverse: Pose -> seq<real>, p: Pose) {
    |inverse(p)| == NumActuators
  }
}
