/**
 * Constants of the firmware configuration headers (main/Config.h, with the load-cell,
 * dead-band and tare constants that live in the bench configuration and in LoadCell3Axis.h).
 * Single-precision literals are read as the decimal reals they are written as.
 */
module Config {

  const NumActuators: nat := 6
  /** Minimum spread between the calibrated potentiometer extremes. */
  const CalibMinDif: int := 100

  const ActuatorMinLength: real := 277.955
  const ActuatorMaxLength: real := 379.555

  const Kp: real := 2.0
  const Ki: real := 0.0
  const Kd: real := 0.1

  /** Controller period in milliseconds, and the same period in seconds. */
  const PlatformUpdateInterval: nat := 10
  const Dt: real := PlatformUpdateInterval as real / 1000.0

  const MinX: real := -20.0
  const MaxX: real := 20.0
  const MinY: real := -20.0
  const MaxY: real := 20.0
  const MinZ: real := 0.0
  const MaxZ: real := 60.0
  const MinRoll: real := -5.0
  const MaxRoll: real := 35.0
  const MinPitch: real := -20.0
  const MaxPitch: real := 20.0
  const MinYaw: real := -10.0
  const MaxYaw: real := 10.0

  /** Capacity of the waypoint array of both trajectory variants. */
  const MaxPoints: nat := 10

  /** Load cells: ring-buffer length, ADC range and force range. */
  const LcSamples: nat := 10
  const LoadCellMin: int := 0
  const LoadCellMax: int := 1023
  const LoadCellMinForce: int := 0
  const LoadCellMaxForce: int := 500
  const TareDelay: nat := 500

  /** Dead band of the bench motor driver. */
  const MinSpeed: int := 20

  /** Number of potentiometer samples taken for each calibration extreme. */
  const CalibSamples: nat := 11
}
