/**
 * The three H-bridge driver variants. Each `setSpeed` only writes pins, so it is modelled
 * as the pin levels and PWM duty it produces for a given speed.
 *  - main/MotorDriver.cpp: two direction pins, A high for forward.
 *  - test_actuator_and_encoder/MotorDriver.cpp: two direction pins wired the other way round,
 *    plus a dead band below MIN_SPEED.
 *  - MotorDriver.cpp (root): one direction pin.
 */
module MotorDriver {
  import opened Utils
  import Config

  datatype Level = Low | High

  /** Pin levels of a two-direction-pin driver. */
  datatype Bridge = Bridge(a: Level, b: Level, duty: int)

  /** Pin levels of the single-direction-pin driver. */
  datatype DirPwm = DirPwm(dir: Level, duty: int)

  /** `(int)min(abs(speed), 255.0f)`: the saturated magnitude, truncated toward zero. */
  function Duty(speed: real): (d: int)
    ensures 0 <= d <= 255
    ensures d as real <= Abs(speed)
    ensures Abs(speed) < 255.0 ==> Abs(speed) < d as real + 1.0
    ensures Abs(speed) >= 255.0 ==> d == 255
  {
    Min(Abs(speed), 255.0).Floor
  }

  /** The duty cycle depends only on the magnitude of the speed. */
  lemma DutySymmetric(speed: real)
    ensures Duty(-speed) == Duty(speed)
  {
    assert Abs(-speed) == Abs(speed);
  }

  /** main/MotorDriver.cpp `setSpeed`: A high and B low for speed >= 0, the reverse otherwise. */
  function SetSpeed(speed: real): (r: Bridge)
    ensures (r.a == High) <==> speed >= 0.0
    ensures r.a != r.b
    ensures r.duty == Duty(speed)
  {
    if speed >= 0.0 then Bridge(High, Low, Duty(speed)) else Bridge(Low, High, Duty(speed))
  }

  /** `stop` of both two-pin drivers: both direction pins low, duty zero. */
  function Stop(): (r: Bridge)
    ensures r.a == Low && r.b == Low && r.duty == 0
  {
    Bridge(Low, Low, 0)
  }

  /** No speed reproduces `stop`: `setSpeed` always drives exactly one direction pin high. */
  lemma StopIsNotASpeed(speed: real)
    ensures SetSpeed(speed) != Stop() && SetSpeedDeadBand(speed) != Stop()
  {
  }

  /** test_actuator_and_encoder/MotorDriver.cpp `setSpeed`: reversed pins and a dead band. */
  function SetSpeedDeadBand(speed: real): (r: Bridge)
    ensures (r.b == High) <==> speed >= 0.0
    ensures r.a != r.b
    ensures Abs(speed) < Config.MinSpeed as real ==> r.duty == 0
    ensures Abs(speed) >= Config.MinSpeed as real ==> r.duty == Duty(speed)
    ensures r.duty == 0 || Config.MinSpeed <= r.duty <= 255
  {
    var a := if speed >= 0.0 then Low else High;
    var b := if speed >= 0.0 then High else Low;
    var s := if Abs(speed) < Config.MinSpeed as real then 0.0 else speed;
    Bridge(a, b, Duty(s))
  }

  /** The bench driver's direction pins are those of the main driver swapped. */
  lemma DeadBandPinsReversed(speed: real)
    ensures SetSpeedDeadBand(speed).a == SetSpeed(speed).b
    ensures SetSpeedDeadBand(speed).b == SetSpeed(speed).a
  {
  }

  /** Outside the dead band both two-pin drivers produce the same duty. */
  lemma DeadBandAgreesAboveMinSpeed(speed: real)
    requires Abs(speed) >= Config.MinSpeed as real
    ensures SetSpeedDeadBand(speed).duty == SetSpeed(speed).duty
  {
  }

  /** MotorDriver.cpp (root) `setSpeed`: the direction pin is high exactly for speed >= 0. */
  function SetSpeedSingle(speed: real): (r: DirPwm)
    ensures (r.dir == High) <==> speed >= 0.0
    ensures r.duty == Duty(speed)
    ensures speed == 0.0 ==> r == DirPwm(High, 0)
  {
    DirPwm(if speed >= 0.0 then High else Low, Duty(speed))
  }
}
