# Jaw-motion robot: a Dafny model of its firmware and motion-capture pipeline

The system is a chewing robot. A six-actuator Stewart platform moves a jaw along a recorded
trajectory, and three-axis load cells measure the bite force. The firmware is Arduino C++.
It has a controller state machine with the states CALIBRATING, MOVING and STOP. It follows
waypoint trajectories, with interpolation and clamping to the pose limits. Each actuator runs
a PID loop and reads a potentiometer, which is calibrated by extending and retracting the
actuator. A motor driver translates a signed speed into direction pins and an 8-bit duty
cycle. Each load cell has ring buffers and a tare. The force-sensing unit combines three load
cells. Both firmware generations are modelled: the newer one under `main/` and the older one
at the repository root, each with its own trajectory, actuator, platform and motor driver.

The Python side turns motion-capture recordings into trajectories:

- quaternion to rotation matrix;
- rotation matrix to Z-Y-X Euler angles, wrapped to one turn;
- the jaw pose expressed in the head frame (`motion_capture_to_traj.py`), then optionally
  rotated into a robot frame (`transform_trajectory.py`);
- derivation of that robot frame from a recording (`derive_frame.py`);
- the fixed motion-capture-to-robot change of axes of `find_axes.py`.

Modelling choices:

- **Firmware.** State-changing firmware objects are Dafny classes whose fields are the C++
  fields. Hardware reads (`analogRead`, `millis`) are parameters. Calls into collaborators
  the model does not own are either recorded (the controller's `calls` log) or reflected in
  the collaborator's modelled state. The load-cell buffers stay `uint8_t`: `ToByte` keeps the
  low byte of each 10-bit reading, exactly as the C++ assignment does. Arduino `map` is modelled
  by the classic `long` formula, whose float argument is truncated first (see "Left out").
  Under that choice `ByteAverageForceBound` shows the consequence of the byte buffers: the
  averaged, mapped force never exceeds 124 of the 500-unit range.
  `CalibratedMinimumIsOutOfRange` shows another: `getLength` maps onto the integer parts
  277 and 379, so the calibrated minimum reads as 277, below `ACTUATOR_MIN_LENGTH` (277.955),
  and `update` refuses it.
- **Python.** The scripts are pure functions on rows of the capture table. The library
  functions they call (`math.sqrt`, `math.atan2`, `median`, `filtfilt`, PCA, `corrcoef`) are
  parameters. The properties that need an exact square root take `ExactSqrt(sqrt)` as a
  hypothesis. Python exceptions are `Err` values carrying the exception's message.

## Model

| member | source | states |
|---|---|---|
| Utils.Clamp | main/Trajectory.cpp:3-19 | Below the lower bound gives the lower bound, which is tested first. A value in range is returned unchanged. With ordered bounds the result is always within them, and above the upper bound gives the upper bound. |
| Utils.ClampIdempotent | main/Trajectory.cpp:59-69 | Clamping a second time to the same bounds, as `getPose` does for five components, changes nothing. |
| Utils.TruncDiv | main/Actuator.cpp:15 | C integer division truncates toward zero. The quotient's magnitude is the magnitude of a divided by that of b, and its sign is that of a·b. The remainder a − b·q is smaller than b in magnitude and is zero or has the sign of a, so (a/b)·b + a%b = a as C requires. |
| Utils.TruncRemainder | main/Actuator.cpp:15 | The remainder left by the truncated quotient is the remainder of the magnitudes, carrying the sign of the dividend. |
| Utils.ArduinoMap | main/Actuator.cpp:15 | Arduino `map` sends `in_min` to `out_min`. |
| Utils.ArduinoMapAtMax | main/Actuator.cpp:15 | Arduino `map` sends `in_max` to `out_max`. |
| Utils.ArduinoMapWithin | main/LoadCell3axis.cpp:50-52 | With an increasing input range and an ordered output range, inputs in range map into the output range. |
| Utils.TruncDivExact | main/Actuator.cpp:15 | Truncating division of an exact multiple returns the factor. |
| Utils.MapFloat | main/Utils.h:6-8 | `mapFloat` sends `in_min` to `out_min` and `in_max` to `out_max`. |
| Utils.MapFloatAffine | main/Utils.h:6-8 | `mapFloat` is affine: output differences are the input differences times (out_max − out_min)/(in_max − in_min). |
| Utils.Degrees2Rad | main/Utils.h:10-12 | Zero maps to zero and the sign is preserved. |
| Utils.Rad2Degrees | main/Utils.h:14-16 | Zero maps to zero and the sign is preserved. |
| Utils.DegreesRoundTrip | main/Utils.h:10-16 | Degrees to radians and back returns the input, up to the rounding of Arduino's two literal constants (relative error at most 10⁻²⁷). |
| Utils.ElapsedU32 | main/RobotController.cpp:91-92 | The `unsigned long` difference of two clock readings is below 2³² and equals the true difference whenever less than one wrap has elapsed. |
| MotorDriver.Duty | main/MotorDriver.cpp:15 | The duty is `min(abs(speed), 255)` truncated: it lies in 0..255, never exceeds the magnitude and is its integer part below saturation. |
| MotorDriver.DutySymmetric | main/MotorDriver.cpp:15 | The duty depends only on the magnitude of the speed. |
| MotorDriver.SetSpeed | main/MotorDriver.cpp:12-16 | Pin A is high exactly when speed ≥ 0, the two pins always differ, and the duty is `Duty(speed)`. |
| MotorDriver.Stop | main/MotorDriver.cpp:18-22 | Both direction pins are low and the duty is zero. |
| MotorDriver.StopIsNotASpeed | test_actuator_and_encoder/MotorDriver.cpp:21-25 | No speed reproduces `stop` on either two-pin driver: `setSpeed` always drives exactly one direction pin high. |
| MotorDriver.SetSpeedDeadBand | test_actuator_and_encoder/MotorDriver.cpp:14-19 | Pin B is high exactly when speed ≥ 0. Speeds below `MIN_SPEED` in magnitude give duty 0, others give `Duty(speed)`, so a non-zero duty is never below `MIN_SPEED`. |
| MotorDriver.DeadBandPinsReversed | test_actuator_and_encoder/MotorDriver.cpp:15-16 | The bench driver's direction pins are the main driver's pins swapped. |
| MotorDriver.DeadBandAgreesAboveMinSpeed | test_actuator_and_encoder/MotorDriver.cpp:17-18 | Outside the dead band both drivers produce the same duty. |
| MotorDriver.SetSpeedSingle | MotorDriver.cpp:11-14 | The direction pin is high exactly when speed ≥ 0 and the duty is `Duty(speed)`; speed 0 gives direction high with duty 0. |
| Kinematics.ClampPose | main/Trajectory.cpp:59-69 | The component-wise clamp always lies within the pose limits and leaves a pose already within them unchanged. |
| Waypoints.FirstLater | main/Trajectory.cpp:46-47 | The scan stops at the first waypoint later than `now`; every waypoint it passes is not later. |
| Waypoints.Locate | main/Trajectory.cpp:44-74 | Picks the exit of `getPose`. Empty exactly when there are no waypoints. Before-first exactly when `now` ≤ the first time. Between on a segment k with t[k−1] ≤ now < t[k]. After-last only when every time is ≤ now. |
| Waypoints.LocateAfterLast | main/Trajectory.cpp:46-74 | With strictly increasing times, a time at or after the last waypoint passes every segment. |
| Waypoints.Fraction | main/Trajectory.cpp:48 | The interpolation parameter of a bracketing segment lies in [0, 1). |
| Waypoints.LerpBetween | main/Trajectory.cpp:50-57 | For t in [0, 1], an interpolated value lies between its two end values. |
| Waypoints.LerpPose | main/Trajectory.cpp:49-57 | Component-wise interpolation gives the first pose at t = 0 and the second at t = 1. |
| Waypoints.SegmentPose | main/Trajectory.cpp:47-57 | The unclamped pose on a bracketing segment starts at the earlier waypoint's pose, and stays within the limits when both end poses are. |
| Waypoints.LerpPoseWithinLimits | main/Trajectory.cpp:50-57 | Interpolating between two poses within the limits stays within the limits. |
| Trajectory.Rejects | main/Trajectory.cpp:24-39 | A waypoint is accepted exactly when its pose is within limits, its time is later than the last stored time and there is room. The pose check is reported first. |
| Trajectory.PoseAt | main/Trajectory.cpp:43-75 | No waypoints gives the zero pose. A time at or before the first gives the first pose. An interpolated pose is always within the limits. |
| Trajectory.PoseAtAfterLast | main/Trajectory.cpp:74 | With increasing times, at or after the last waypoint the last pose is held. |
| Trajectory.PoseAtWithinLimits | main/Trajectory.cpp:43-75 | When every stored pose is within the limits, so is every pose returned. |
| Trajectory.Trajectory.constructor | main/Trajectory.cpp:21 | A new trajectory stores no waypoints. |
| Trajectory.Trajectory.AddWaypoint | main/Trajectory.cpp:23-41 | Returns true exactly when nothing rejects the waypoint, and then appends it; otherwise the stored waypoints are unchanged. |
| Trajectory.Trajectory.GetPose | main/Trajectory.cpp:43-75 | The loop returns `PoseAt` of the stored waypoints, which is within the pose limits. |
| LegacyTrajectory.PoseAt | Trajectory.cpp:9-20 | Same exits as the newer lookup, without clamping. An interpolated component lies between the two bracketing components, and after the last waypoint the last pose is held. |
| LegacyTrajectory.AgreesWithClampedLookup | Trajectory.cpp:9-20 | On waypoints within the limits, the unclamped root lookup and the clamped `main/` lookup agree at every time. |
| LegacyTrajectory.Trajectory.constructor | Trajectory.cpp:3 | A new trajectory stores no waypoints. |
| LegacyTrajectory.Trajectory.AddWaypoint | Trajectory.cpp:5-7 | Appends while fewer than `MAX_POINTS` are stored; on a full trajectory nothing changes. Nothing is validated. |
| LegacyTrajectory.Trajectory.GetPose | Trajectory.cpp:9-20 | The loop returns the legacy `PoseAt` of the stored waypoints. |
| Sampling.SeqMax | main/StewartPlatform.cpp:74-80 | The largest reading of a non-empty burst: no reading exceeds it and it is one of them. |
| Sampling.SeqMin | main/StewartPlatform.cpp:104-110 | The smallest reading of a non-empty burst: no reading is below it and it is one of them. |
| Sampling.MaxReading | main/StewartPlatform.cpp:74-80 | The running-maximum loop returns `SeqMax` of the readings. |
| Sampling.MinReading | main/StewartPlatform.cpp:104-110 | The running-minimum loop returns `SeqMin` of the readings. |
| Actuator.Step | main/Actuator.cpp:22-36 | A refused length only zeroes the speed. An accepted length sets the error to target − length, adds error·Δt to the integral and sets the speed to Kp·e + Ki·Σ + Kd·Δe/Δt. Target and calibration are untouched. |
| Actuator.RunIntegrates | main/Actuator.cpp:29-30 | Over any run of updates, the integral grows by Δt times the sum of the accepted errors, and the target never changes. |
| Actuator.RunOutOfRange | main/Actuator.cpp:24-28 | Runs of out-of-range readings never move the PID state and leave the motor stopped. |
| Actuator.LengthFromPot | main/Actuator.cpp:13-16 | The calibrated minimum reading maps to 277, the integer part of `ACTUATOR_MIN_LENGTH`. |
| Actuator.LengthFromPotWithin | main/Actuator.cpp:13-16 | Readings inside the calibrated range map into [277, 379]. |
| Actuator.CalibratedMinimumIsOutOfRange | main/Actuator.cpp:13-28 | The length read at the calibrated minimum is refused by the `update` guard. |
| Actuator.Actuator.constructor | main/Actuator.cpp:5-6 | Target, integral, last error and both calibration values start at zero; the actuator number is kept. |
| Actuator.Actuator.SetTargetLength | main/Actuator.cpp:18-20 | Only the target changes. It becomes the length constrained to [`ACTUATOR_MIN_LENGTH`, `ACTUATOR_MAX_LENGTH`]. |
| Actuator.Actuator.Update | main/Actuator.cpp:22-36 | Returns true exactly when the length is within the limits, and the new state is `Step` of the old one. |
| Actuator.Actuator.Stop | main/Actuator.cpp:38-40 | Only the commanded speed changes, to zero. |
| Actuator.Actuator.SetSpeed | main/Actuator.cpp:42-44 | Only the commanded speed changes. |
| Actuator.Actuator.SetMin | main/Actuator.cpp:46-48 | Only the minimum potentiometer value changes. |
| Actuator.Actuator.SetMax | main/Actuator.cpp:50-52 | Only the maximum potentiometer value changes. |
| LegacyActuator.Actuator.constructor | Actuator.cpp:5-6 | Everything starts at zero; the actuator number is kept. |
| LegacyActuator.Actuator.SetTargetLength | Actuator.cpp:18-20 | The target becomes the constrained length; nothing else changes. |
| LegacyActuator.Actuator.Update | Actuator.cpp:22-34 | The same guarded PID `Step` as the newer actuator, with no success flag. |
| LegacyActuator.Actuator.Stop | Actuator.cpp:36-38 | Only the commanded speed changes, to zero. |
| LegacyActuator.Actuator.Calibrate | Actuator.cpp:40-75 | The maximum becomes the largest extended reading and the minimum the smallest retracted reading. The motor ends stopped and nothing else changes. |
| StewartPlatform.FirstOutOfRange | main/StewartPlatform.cpp:30-35 | The first actuator whose length the guard refuses; every earlier one is accepted. |
| StewartPlatform.SpanAcceptedIff | main/StewartPlatform.cpp:118-132 | Calibration accepts an actuator exactly when max − min ≥ `CALIB_MIN_DIF`; the reversed-order test is subsumed. |
| StewartPlatform.FirstRejected | main/StewartPlatform.cpp:103-133 | The first actuator whose calibration is rejected; every earlier one is accepted. |
| StewartPlatform.FirstRejectedAt | main/StewartPlatform.cpp:103-133 | A rejected actuator not after the first rejection is the first rejection. |
| StewartPlatform.StewartPlatform.constructor | main/StewartPlatform.cpp:5-8 | Six fresh, distinct actuators numbered 0 to 5, each in its initial state; rotation centre and home pose are zero. |
| StewartPlatform.StewartPlatform.Begin | main/StewartPlatform.cpp:10-14 | Sets the rotation centre to (0, 102, 83) and the home pose to (0, −50, 0, 0, 0, 0). |
| StewartPlatform.StewartPlatform.MoveToPose | main/StewartPlatform.cpp:16-28 | Stores the six inverse-kinematics lengths. Each actuator's target becomes its length clamped to the actuator limits. |
| StewartPlatform.StewartPlatform.Update | main/StewartPlatform.cpp:30-35 | Returns true exactly when all six lengths are accepted. The actuators up to and including the first refusal take their PID step, and later ones are untouched. |
| StewartPlatform.StewartPlatform.Stop | main/StewartPlatform.cpp:37-39 | Every actuator's speed becomes zero and nothing else changes. |
| StewartPlatform.StewartPlatform.DriveAll | main/StewartPlatform.cpp:59-64 | Every actuator is commanded at the given speed; nothing else changes. |
| StewartPlatform.StewartPlatform.RecordMaxima | main/StewartPlatform.cpp:73-88 | Every actuator's maximum becomes the largest reading of its burst. |
| StewartPlatform.StewartPlatform.RecordMinimum | main/StewartPlatform.cpp:103-132 | The actuator's minimum becomes the smallest reading. It is accepted exactly when the span against its maximum is accepted, and the other actuators are untouched. |
| StewartPlatform.StewartPlatform.RecordMinima | main/StewartPlatform.cpp:103-133 | Succeeds exactly when every actuator's span is accepted. Minima are recorded up to and including the first rejection, and later ones are untouched. |
| StewartPlatform.StewartPlatform.CalibrateActuators | main/StewartPlatform.cpp:55-141 | Succeeds exactly when every max − min ≥ `CALIB_MIN_DIF`. Every actuator ends stopped with its maximum recorded, and its minimum recorded up to the first rejection. |
| LegacyStewartPlatform.StewartPlatform.constructor | StewartPlatform.cpp:5-8 | Six fresh, distinct actuators numbered 0 to 5. |
| LegacyStewartPlatform.StewartPlatform.MoveToPose | StewartPlatform.cpp:14-24 | Stores the six lengths; each actuator's target becomes its clamped length. |
| LegacyStewartPlatform.StewartPlatform.Update | StewartPlatform.cpp:26-28 | Every actuator takes its PID step, whatever the others measured. |
| LegacyStewartPlatform.StewartPlatform.CalibrateActuators | StewartPlatform.cpp:30-32 | Each actuator is calibrated in turn from its own bursts. |
| LoadCell.ToByte | main/LoadCell3axis.cpp:31-33 | Storing an `int` in a `uint8_t` slot keeps a value in 0..255 congruent to it modulo 256, and keeps values already in that range. |
| LoadCell.SumOfBytes | main/LoadCell3axis.cpp:37-42 | A buffer of bytes sums to between 0 and 255 times its length. |
| LoadCell.SumOfConstant | main/LoadCell3axis.cpp:37-42 | A constant buffer sums to its value times its length. |
| LoadCell.AxisForce | main/LoadCell3axis.cpp:37-62 | The averaged, mapped, tared and constrained force lies in [`LOAD_CELL_MIN_FORCE`, `LOAD_CELL_MAX_FORCE`]. |
| LoadCell.Average | main/LoadCell3axis.cpp:37-46 | `LC_SAMPLES` times the average is the sum of all slots, zero-initialised ones included. A full byte buffer averages within [0, 255]. |
| LoadCell.CountsToForce | main/LoadCell3axis.cpp:50-52 | `LOAD_CELL_MIN` maps to `LOAD_CELL_MIN_FORCE`, `LOAD_CELL_MAX` to `LOAD_CELL_MAX_FORCE`, and counts in between into the force range. |
| LoadCell.AxisTare | main/LoadCell3axis.cpp:76-105 | The tare from the smallest reading, mapped and constrained, lies in the force range. |
| LoadCell.ByteAverageForceBound | main/LoadCell3axis.cpp:31-52 | Because the buffers hold bytes, the mapped average lies in [0, 124] under the integer `map`, never reaching the 500-unit top of the range. |
| LoadCell.TareCancelsSteadyLoad | main/LoadCell3axis.cpp:55-105 | Under the integer `map`, taring on a steady reading and then reading it steadily gives zero force. |
| LoadCell.Sample | main/LoadCell3axis.cpp:31-34 | Stores the byte of each reading at the current slot of each of the three buffers, and keeps every other slot of all three. The index advances by one modulo `LC_SAMPLES`, wrapping to 0 after the last slot. Force and tare are untouched. |
| LoadCell.Measure | main/LoadCell3axis.cpp:36-63 | Every component of the measured force lies in the force range. |
| LoadCell.SumBuffers | main/LoadCell3axis.cpp:37-42 | The averaging loop computes the sum of each of the three buffers. |
| LoadCell.LoadCell3Axis.constructor | main/LoadCell3Axis.h:42-45 | Three distinct zero-filled buffers, index 0, zero force and zero tare. |
| LoadCell.LoadCell3Axis.ReadForce | main/LoadCell3axis.cpp:22-64 | The new state is `Sample` of the old with the readings, and the result is `Measure` of the new state. |
| LoadCell.LoadCell3Axis.Update | main/LoadCell3axis.cpp:7-15 | Samples the readings, then stores the measured force as the current force. |
| LoadCell.LoadCell3Axis.GetForce | main/LoadCell3axis.cpp:17-19 | Returns the stored force. |
| LoadCell.LoadCell3Axis.Tare | main/LoadCell3axis.cpp:66-106 | The tare becomes `AxisTare` of each axis's readings; nothing else changes. |
| ForceSensing.Total | main/ForceSensing.cpp:20-22 | x and y are the sums of the front and back-left cells only; z is the sum of all three cells' z. |
| ForceSensing.TotalIgnoresBackRightLateral | main/ForceSensing.cpp:20-21 | The lateral components do not depend on the back-right cell. |
| ForceSensing.TotalBounds | main/ForceSensing.cpp:20-22 | With every cell in range, x and y are within twice and z within three times the single-cell range. |
| ForceSensing.UpdateThenRead | main/ForceSensing.cpp:10-17 | A cell updated and then read advances its ring index by two and keeps the force measured by the update. |
| ForceSensing.UpdateThenReadSteps | main/ForceSensing.cpp:10-17 | `update` followed by `readForce` is `UpdateThenRead`. |
| ForceSensing.ForceSensing.constructor | main/ForceSensing.cpp:3-7 | Three fresh cells and zero total force. |
| ForceSensing.ForceSensing.Update | main/ForceSensing.cpp:9-23 | Each cell is updated and then read. The total is the combination of the three second readings. |
| ForceSensing.ForceSensing.UpdateCells | main/ForceSensing.cpp:10-12 | Each cell samples its reading and keeps the measured force. |
| ForceSensing.ForceSensing.ReadCells | main/ForceSensing.cpp:15-17 | Each cell samples its reading and returns the measured force. |
| ForceSensing.ForceSensing.ReadAndCombine | main/ForceSensing.cpp:15-22 | The cells are read and the total force becomes `Total` of the three readings. |
| ForceSensing.ForceSensing.GetTotalForce | main/ForceSensing.cpp:25-27 | Returns the stored total. |
| RobotController.Next | main/RobotController.cpp:41-55 | The requested state is taken exactly when the change is not between MOVING and CALIBRATING; STOP is always reachable. |
| RobotController.Forbidden | main/RobotController.cpp:45-53 | A forbidden change is between two different states, neither of them STOP. |
| RobotController.Due | main/RobotController.cpp:91-92 | When less than one 32-bit wrap separates the readings, the handler is due exactly when at least `PLATFORM_UPDATE_INTERVAL` ms have passed. |
| RobotController.EntryCalls | main/RobotController.cpp:56-66 | Entering CALIBRATING or STOP from another state stops the platform. Refused changes, repeated states and entering MOVING make no calls. |
| RobotController.Visited | main/RobotController.cpp:41-68 | The states visited by a series of requests start at the initial state, one per request. |
| RobotController.VisitedNeverJumps | main/RobotController.cpp:46-53 | No series of requests ever moves directly between MOVING and CALIBRATING. |
| RobotController.CalibratingFromMovingPassesStop | main/RobotController.cpp:46-53 | Starting in MOVING, any later visit to CALIBRATING is preceded by a visit to STOP. |
| RobotController.PeriodicCalls | main/RobotController.cpp:110-119 | When not due nothing is sent. When due the platform calls are sent, followed by the switch to STOP when the update failed. |
| RobotController.RobotController.constructor | main/RobotController.h:14-25 | Initial state and file name as given; no calls made, timers unset, empty trajectory. |
| RobotController.RobotController.SetState | main/RobotController.cpp:41-68 | Returns true exactly when the change is allowed. The new state is `Next`, the entry hook's calls are logged, and the start time is recorded on entering MOVING. |
| RobotController.RobotController.OnEnterCalibrating | main/RobotController.cpp:158-165 | Stops the platform. |
| RobotController.RobotController.OnEnterMoving | main/RobotController.cpp:167-172 | Records the trajectory start time. |
| RobotController.RobotController.OnEnterStop | main/RobotController.cpp:174-180 | Stops the platform. |
| RobotController.RobotController.SetPlatformHomePose | main/RobotController.cpp:70-72 | Passes the home pose to the platform. |
| RobotController.RobotController.SetCalibrationTargetPose | main/RobotController.cpp:74-80 | The target changes only while CALIBRATING. |
| RobotController.RobotController.SetFixedInterval | main/RobotController.cpp:82-84 | Stores the interval. |
| RobotController.RobotController.LoadTrajectoryFromFile | main/RobotController.cpp:182-191 | Reports the load outcome; the loaded file name follows only a success. |
| RobotController.RobotController.Begin | main/RobotController.cpp:6-23 | Succeeds exactly when calibration and loading both succeed. Either failure switches to STOP. |
| RobotController.RobotController.Update | main/RobotController.cpp:25-35 | Runs exactly the handler of the current state. For that handler it states the calls, the timer update and the new state: STOP after a failed MOVING or CALIBRATING update, otherwise unchanged. In STOP it also states the reloaded file name and interval. The other handlers' timers, the reload fields outside STOP and the trajectory start time are unchanged. The calibration target and the configured file name and interval are outside its frame. |
| RobotController.RobotController.Move | main/RobotController.cpp:106-121 | When an interval has elapsed, records the time and aims the platform at the trajectory's pose for the elapsed time, then updates it. A failed update switches to STOP. The trajectory start time is unchanged. |
| RobotController.RobotController.Calibrate | main/RobotController.cpp:88-104 | Starts its clock once. When due, records the time, aims the platform at the calibration target in absolute coordinates and stops on failure. Refreshes the force sensors on every pass. The trajectory start time is unchanged. |
| RobotController.RobotController.StopHandler | main/RobotController.cpp:123-156 | Stays in STOP, picks up a changed file name or fixed interval, and sends the platform home once per interval. |
| RobotController.RobotController.ReloadIfChanged | main/RobotController.cpp:124-141 | The loaded file name follows the configured one after a successful load or reload; the trajectory takes the configured interval. |
| RobotController.RobotController.StopTick | main/RobotController.cpp:143-155 | Starts its clock once and, when due, sends the platform home. |
| LinAlg.Cross | data_processing/derive_frame.py:98 | `np.cross` is orthogonal to both arguments. |
| LinAlg.Transpose | data_processing/transform_trajectory.py:87 | The rows of the transpose are the columns of the matrix. |
| LinAlg.MatMulAssoc | data_processing/transform_trajectory.py:108-111 | Matrix products associate, so Bᵀ(RhᵀRj) = (BᵀRhᵀ)Rj. |
| LinAlg.TripleProduct | data_processing/derive_frame.py:98-105 | The determinant of the columns (a × b, a, b) is \|a × b\|². |
| Rotations.NormSq | data_processing/motion_capture_to_traj.py:20 | The squared norm is never negative. |
| Rotations.NormSqZero | data_processing/motion_capture_to_traj.py:20-22 | Only the zero quaternion has zero norm. |
| Rotations.QuatToRot | data_processing/motion_capture_to_traj.py:17-28 | Fails exactly when the computed norm is 0. Otherwise the result is the matrix of the normalised quaternion. |
| Rotations.RotOf | data_processing/motion_capture_to_traj.py:24-28 | The identity quaternion (0, 0, 0, 1) gives the identity matrix. |
| Rotations.Normalize | data_processing/motion_capture_to_traj.py:23 | Dividing by n and scaling back by n returns the quaternion. |
| Rotations.QuatToRotErrIff | data_processing/transform_trajectory.py:40-44 | With an exact square root, only the zero quaternion is rejected. |
| Rotations.QuatToRotOrthogonal | data_processing/transform_trajectory.py:40-50 | Every non-zero quaternion yields an orthogonal matrix (RᵀR = I). |
| Rotations.QuatToRotRowsOrthonormal | data_processing/transform_trajectory.py:40-50 | RRᵀ = I as well, so the transpose used for the head frame is the inverse. |
| Rotations.UnitToRotOrthogonal | data_processing/motion_capture_to_traj.py:24-28 | The matrix formula applied to a unit quaternion is orthogonal. |
| Rotations.RotOfEven | data_processing/motion_capture_to_traj.py:24-28 | q and −q give the same matrix. |
| Rotations.UnitToRotTranspose | data_processing/motion_capture_to_traj.py:24-28 | The transpose is the matrix of the conjugate quaternion. |
| Rotations.NormalizedUnit | data_processing/motion_capture_to_traj.py:23 | Dividing by the norm gives a unit quaternion. |
| Rotations.QuatToRotUnit | data_processing/motion_capture_to_traj.py:17-28 | A unit quaternion is used as it is. |
| Rotations.QuatToRotScaleInvariant | data_processing/motion_capture_to_traj.py:17-28 | Scaling the quaternion by any non-zero factor, −1 included, gives the same result. |
| Rotations.NormalizeScaledSame | data_processing/motion_capture_to_traj.py:23 | Normalising c·q by c·n gives the normalised q. |
| Rotations.NormalizeScaledOpposite | data_processing/motion_capture_to_traj.py:23 | Normalising c·q by −c·n gives the normalised q negated. |
| Rotations.ScaledNorm | data_processing/motion_capture_to_traj.py:20 | The norm of c·q is \|c\| times the norm of q. |
| Rotations.QuatToRotIdentity | data_processing/motion_capture_to_traj.py:17-28 | The identity quaternion (0, 0, 0, 1) gives the identity matrix. |
| Rotations.HypotSq | data_processing/motion_capture_to_traj.py:35 | a² + b² is never negative. |
| Rotations.RotToEulerZYX | data_processing/motion_capture_to_traj.py:30-45 | Pitch is atan2(−R20, hypot(R00, R10)). Away from gimbal lock, yaw is atan2(R10, R00) and roll atan2(R21, R22). In gimbal lock, yaw is 0 and roll atan2(−R12, R11). |
| Rotations.GimbalLockedIff | data_processing/motion_capture_to_traj.py:35-36 | With an exact square root, the lock test is R00² + R10² < 10⁻¹². |
| Rotations.GimbalLocked | data_processing/motion_capture_to_traj.py:35-36 | A matrix whose R00 and R10 are both zero is treated as gimbal-locked whenever the square root of 0 is 0. |
| Rotations.PyMod | data_processing/motion_capture_to_traj.py:48 | Python's `%` with a positive divisor lies in [0, divisor). |
| Rotations.WrapRad | data_processing/transform_trajectory.py:65 | Every wrapped angle lies in [−π, π). |
| Rotations.WrapRadIdentity | data_processing/motion_capture_to_traj.py:47-48 | Angles already in [−π, π) are unchanged. |
| Rotations.WrapRadClosed | data_processing/motion_capture_to_traj.py:47-48 | On [−π, π] the wrap keeps every angle except π, which becomes −π. |
| Rotations.WrapRadPeriodic | data_processing/motion_capture_to_traj.py:47-48 | Adding whole turns does not change the wrapped angle. |
| MocapTable.RowsFrom | data_processing/derive_frame.py:63 | The boolean-mask filter keeps exactly the rows at or after the cut-off. |
| MocapTable.RowsFromAppend | data_processing/derive_frame.py:63 | The filter distributes over concatenation, so it keeps the rows' order. |
| MocapTable.CropStartup | data_processing/derive_frame.py:61-63 | Fails exactly on an empty table. Otherwise keeps exactly the rows at least one second after the first. |
| MocapTable.Times | data_processing/derive_frame.py:67 | The Time column, row by row. |
| MocapTable.TimeSteps | data_processing/derive_frame.py:67 | The differences of consecutive times. |
| MocapTable.InferSamplingRate | data_processing/derive_frame.py:65-70 | Fails with the sampling-rate message exactly when there are fewer than two rows or the median step is not positive. Otherwise the rate is positive and is 1/median. |
| MocapTable.SamplingRate | data_processing/transform_trajectory.py:91-95 | A given rate is used as is; only a missing one is inferred. |
| MocapTable.MinOf | data_processing/derive_frame.py:67 | The smallest time step, which a median never falls below. |
| MocapTable.IncreasingTimesGiveRate | data_processing/transform_trajectory.py:91-95 | Strictly increasing times with at least two rows always yield a rate. |
| MocapTable.BasisFromArray | data_processing/transform_trajectory.py:84-86 | Accepted exactly when the array is 3×3; the error carries the shape message. |
| MocapTable.ArrayOf | data_processing/derive_frame.py:109 | A saved matrix is a 3×3 array. |
| MocapTable.BasisRoundTrip | data_processing/transform_trajectory.py:84-86 | A saved basis loads back unchanged. |
| RelativePose.HeadRelative | data_processing/motion_capture_to_traj.py:63-67 | Fails exactly when either quaternion is rejected, with the head's error first. |
| RelativePose.HeadRelativeErrIff | data_processing/motion_capture_to_traj.py:63-64 | With an exact square root, a row fails exactly when one of its quaternions is zero. |
| RelativePose.HeadAtOrigin | data_processing/motion_capture_to_traj.py:66-67 | A head at the origin with identity orientation leaves the jaw pose unchanged. |
| RelativePose.HeadRelativeRecoversJaw | data_processing/motion_capture_to_traj.py:63-67 | Composing the head pose with the relative pose gives back the jaw pose, in both rotation and position. |
| RelativePose.HeadRelativeScaleInvariant | data_processing/motion_capture_to_traj.py:63-67 | Scaling either quaternion by a non-zero factor does not change the relative pose. |
| RelativePose.ToRobotFrame | data_processing/transform_trajectory.py:111-112 | The identity basis leaves the pose unchanged. |
| RelativePose.RobotFrameComposes | data_processing/transform_trajectory.py:108-112 | Translation Bᵀ·Rhᵀ·(pj − ph) and orientation Bᵀ·Rhᵀ·Rj: the two changes of frame compose. |
| RelativePose.RobotFrameInvertible | data_processing/transform_trajectory.py:111-112 | A basis with orthonormal rows undoes the change of frame. |
| RelativePose.WrappedEuler | data_processing/transform_trajectory.py:114 | All three angles lie in [−π, π). |
| RelativePose.WrappedEulerInRange | data_processing/motion_capture_to_traj.py:69 | For an atan2 with values in [−π, π], as `math.atan2` has, each wrapped angle equals the raw one, except that exactly π becomes −π. |
| RelativePose.PoseValues | data_processing/motion_capture_to_traj.py:69-70 | Six values: the translation, then three angles in [−π, π). |
| RelativePose.JawInHeadRow | data_processing/motion_capture_to_traj.py:57-70 | Fails exactly when `HeadRelative` fails. Otherwise six values whose first three are the relative translation. |
| RelativePose.RobotFrameRow | data_processing/transform_trajectory.py:99-115 | Fails exactly when `HeadRelative` fails. Otherwise six values: the robot-frame translation Bᵀ·Rhᵀ·(pj − ph), then three wrapped angles. |
| RelativePose.IdentityBasisIsHeadFrame | data_processing/transform_trajectory.py:108-114 | With the identity basis the robot-frame row equals the head-frame row. |
| RelativePose.RenormalizeKeepsRotation | data_processing/transform_trajectory.py:74-77 | Renormalising does not change the rotation matrix, and a non-zero quaternion becomes a unit one. |
| RelativePose.RenormalizeRowKeepsPose | data_processing/transform_trajectory.py:74-77 | Renormalising a row leaves its relative pose unchanged. |
| RelativePose.RenormalizeAll | data_processing/transform_trajectory.py:74-77 | Every row is renormalised, in order. |
| RelativePose.Renormalize | data_processing/transform_trajectory.py:75-76 | A quaternion whose computed norm is 0 is kept as it is, where numpy would produce NaN. Otherwise the result scaled back by the norm is the quaternion. |
| RelativePose.RenormalizeRow | data_processing/transform_trajectory.py:69-77 | Only the quaternions change: frame, time and both positions are kept. |
| RelativePose.ConvertRows | data_processing/motion_capture_to_traj.py:76-81 | Succeeds exactly when every row converts. Then one output row per input row, carrying its frame and time. A failure carries some row's error. |
| RelativePose.JawInHeadTable | data_processing/motion_capture_to_traj.py:73-81 | Succeeds exactly when every row's relative pose exists. Then output row i carries input row i's frame and time and its head-frame values. |
| RelativePose.TransformTrajectory | data_processing/transform_trajectory.py:82-120 | The shape error comes first, then the rate error, then the filter's own error. On success every filtered and renormalised row is converted into the robot frame, in order. Conversely, when all three succeed and every filtered row has a relative pose, the table is written. |
| RelativePose.TransformTrajectoryKeepsFrames | data_processing/transform_trajectory.py:117-120 | With a filter that returns one row per input row with its frame and time, as `butter_lowpass`'s copy does, the written table has one row per captured row, with that row's frame and time. |
| FrameDerivation.RejectOrthogonal | data_processing/derive_frame.py:80 | Removing the component along a unit axis leaves a vector orthogonal to it. |
| FrameDerivation.Reject | data_processing/derive_frame.py:80 | Adding back the component along the axis restores the vector. |
| FrameDerivation.RejectAxisZ | data_processing/derive_frame.py:77-80 | Against the motion-capture Y axis, the projection zeroes the middle coordinate. |
| FrameDerivation.ProjectAll | data_processing/derive_frame.py:80 | Every jaw position is projected onto the plane orthogonal to Z. |
| FrameDerivation.Heights | data_processing/derive_frame.py:92-93 | The coordinate of every position along an axis. |
| FrameDerivation.HeightsNeg | data_processing/derive_frame.py:92-95 | Flipping the axis flips every coordinate along it. |
| FrameDerivation.VecNormSq | data_processing/derive_frame.py:89 | The squared length is never negative. |
| FrameDerivation.VecNormSqZero | data_processing/derive_frame.py:89 | Only the zero vector has zero length. |
| FrameDerivation.NormalizedUnitVec | data_processing/derive_frame.py:89 | Dividing a vector of non-zero length by that length gives a unit vector. |
| FrameDerivation.Normalized | data_processing/derive_frame.py:89 | Dividing by n and scaling back by n returns the vector. |
| FrameDerivation.NormalizedOrthogonal | data_processing/derive_frame.py:88-89 | Normalising keeps a vector orthogonal to the vectors it was orthogonal to. |
| FrameDerivation.UnitInPlane | data_processing/derive_frame.py:85-89 | None exactly when the projected length is zero. Otherwise the normalised projection, orthogonal to Z and of unit length with an exact square root. |
| FrameDerivation.SignByCorrelation | data_processing/derive_frame.py:91-95 | Negates Y exactly when the correlation is negative. Under an odd correlation the result never correlates negatively, and length and orthogonality are kept. |
| FrameDerivation.SignRule | data_processing/derive_frame.py:94-95 | Under an odd correlation, flipping a negatively correlated axis makes the correlation positive. |
| FrameDerivation.CompleteBasis | data_processing/derive_frame.py:97-106 | The columns are (X, Y, Z), with X orthogonal to Y and Z, and det ≈ 1 or the basis error. A unit Y in the plane always completes to a rotation with X = Y × Z. |
| FrameDerivation.IsClose | data_processing/derive_frame.py:105 | `np.isclose` with atol 10⁻³ holds for equal values, and against 1 it accepts exactly [0.99899, 1.00101]. |
| FrameDerivation.OrientBasis | data_processing/derive_frame.py:85-106 | A result is a robot basis whose Y is ± the normalised projected component, correlated non-negatively with Z. With an exact square root it succeeds exactly when the projection is non-zero, and is then a rotation. |
| FrameDerivation.JawPositions | data_processing/derive_frame.py:73 | The jaw position of every row, in order. |
| FrameDerivation.FilteredJaw | data_processing/derive_frame.py:61-74 | An empty table is the indexing error. Otherwise no rate for the cropped table is the rate error, and with a rate the result is the filter's outcome on the cropped jaw positions. |
| FrameDerivation.DeriveFrame | data_processing/derive_frame.py:55-106 | Propagates the crop, rate, filter and PCA errors; otherwise any error is the basis error. A result is a robot basis whose Y correlates non-negatively with Z. The Y column of a result is ± the principal component with its Z part removed, normalised. With an exact square root it succeeds exactly when that in-plane part is non-zero, and is then a rotation with X = Y × Z. |
| FrameDerivation.ZeroLengthOnlyForZero | data_processing/derive_frame.py:89 | With an exact square root, a zero length means the zero vector. |
| FrameDerivation.NonZeroLength | data_processing/derive_frame.py:89-95 | A vector of non-zero length is non-zero and normalises, with either sign, to a unit vector. |
| FrameDerivation.CrossWithAxisZ | data_processing/derive_frame.py:98-99 | A unit Y orthogonal to Z gives a unit Y × Z, and the columns (Y × Z, Y, Z) form a rotation. |
| AxisRemap.RemapPos | data_processing/find_axes.py:16-17 | Position (x, y, z) becomes (x, z, y). |
| AxisRemap.RemapRot | data_processing/find_axes.py:19-23 | Column 0 is kept and columns 1 and 2 are swapped. |
| AxisRemap.RemapInvolution | data_processing/find_axes.py:7-24 | The remap is its own inverse on positions and matrices. |
| AxisRemap.RemapRotDet | data_processing/find_axes.py:19-23 | Swapping two columns negates the determinant: the remap changes handedness. |
| AxisRemap.SetColumn | data_processing/find_axes.py:21-23 | One column is copied and the other entries are untouched. |
| AxisRemap.MocapToRobotFrame | data_processing/find_axes.py:7-24 | The returned position is `RemapPos` of the input, and the fresh matrix is `RemapRot` of the input matrix. |

## Left out

- Hardware I/O is not modelled: pin setup (`begin` of drivers and actuators, `pinMode`), `analogRead`, `analogWrite`, `digitalWrite`, the multiplexer channel selection and `Serial` output. Readings are parameters and pin levels are values.
- Timing loops are not modelled. The `millis()`-bounded extend/retract loops and `delay` of calibration, and the `TARE_DELAY` sampling loop of `tare`, become one command or a finite sequence of readings whose length the caller chooses.
- `printForce`, `printPoints` and `printPose` print only and are left out.
- The root `StewartPlatform::begin` only calls each actuator's `begin`, so it is left out with pin setup.
- Inverse kinematics (main/Kinematics.cpp) is trigonometry in floating point. It is a parameter from a pose to six lengths.
- `Trajectory::loadFromCSV`, `setFixedInterval` and `getFixedInterval` (SD-card CSV parsing) are not part of this model. Their outcomes are boolean parameters of the controller's methods.
- The controller's calls to `calibrateActuators(false, true)`, `moveToPose(pose, true)` and `update(false)` pass arguments that main/StewartPlatform.cpp does not declare. The controller records these calls; it does not run the platform model.
- main/RobotController.h declares fewer members than main/RobotController.cpp uses (no trajectory, force sensing, file names or timers). The model follows the .cpp, and its constructor's initial values are choices of the model.
- Floating point is not modelled: `float`/`double` are reals. IEEE rounding, overflow and NaN are not represented. A NaN the Python code would carry on (a zero-length vector, an undefined correlation) is modelled as `None` or `Err` at the point it arises.
- `math.sqrt`, `math.atan2`, `pd.Series.median`, `scipy.signal.filtfilt`/`butter`, sklearn's PCA and `np.corrcoef` are parameters. Properties that need them exact say so through hypotheses (`ExactSqrt`, `MedianAtLeastMin`, `CorrelationOdd`).
- The filters (`butter_lowpass`, `butter_lowpass_pos`) and the PCA fit are parameters that return either a value or an error. Which inputs make them raise is not modelled: a cutoff at or above half the sampling rate, a sampling rate of 0 (the `fc / (fs/2)` division), a table shorter than `filtfilt`'s padding, or fewer than two rows for the PCA. That a successful filter keeps one row per input row, with its frame and time, is the hypothesis `FilterKeepsRows`.
- CSV reading, `np.load`/`np.save`, argparse and printing are left out. The scripts are modelled from the loaded table to the table or matrix they write.
- The plotting and animation code of find_axes.py, the visualisation scripts, the GUI and the plot generators are outside the modelled core.
- Rotations.WrapRad: the result is stated in [−π, π), which is what `(a + π) % 2π − π` gives for reals; the comment in motion_capture_to_traj.py says [−π, π].
- Error messages are modelled with ASCII hyphens where the Python sources use a non-breaking hyphen (U+2011).
- MocapTable.InferSamplingRate: a median of NaN differences (fewer than two rows) is modelled as the error it leads to. The median of two or more rows is a parameter, so NaN steps inside a longer column are not represented.
- Utils.ArduinoMap: `map` is modelled by the classic Arduino formula on `long` operands, with truncating division. A float argument, such as the load cell's average at main/LoadCell3axis.cpp:50-52, is truncated to an integer first. The board's core library is not part of this model. A core with a floating-point overload of `map` would keep the fraction of the average.
- LoadCell.ByteAverageForceBound: the bound of 124 holds under the integer `map`. A floating-point `map` would give up to about 124.6 for a byte average of 255.
- LoadCell.TareCancelsSteadyLoad: zero holds under the integer `map`. A floating-point `map` would leave a residue below one force unit, because the tare at main/LoadCell3axis.cpp:97-99 maps an integer. For a steady reading of 100 the residue is about 0.88.
- Actuator.LengthFromPot: requires `minPot != maxPot`. `getLength` divides by `maxPot - minPot`, which is zero while both values are still 0 from the constructor (main/Actuator.cpp:5-6, 15). That division by zero is undefined behaviour in C++ and is not modelled.
- Utils.DegreesRoundTrip: states the round trip up to the relative error of Arduino's two literal constants, not exact equality.
