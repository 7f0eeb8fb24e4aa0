/**
 * main/Actuator.cpp: one linear actuator with a potentiometer and a PID position loop.
 * The measured length (the potentiometer reading mapped by `getLength`) is an input of
 * `update`; the driver's pins are modelled by the MotorDriver module, and an actuator
 * keeps the last speed it handed to the driver.
 */
module Actuator {
  import opened Config
  import opened Utils

  /** A measured length the controller accepts. */
  predicate InRange(current: real) {
    ActuatorMinLength <= current <= ActuatorMaxLength
  }

  /** The fields of an actuator that its methods read and write. */
  datatype State = State(targetLength: real, errorSum: real, lastError: real, speed: real, minPot: int, maxPot: int)

  /** PID output for `error`, the already-updated integral and the previous error. */
  function Command(error: real, errorSum: real, lastError: real): real {
    Kp * error + Ki * errorSum + Kd * ((error - lastError) / Dt)
  }

  /** The new state after one `update` that measured `current`. */
  function Step(s: State, current: real): (r: State)
    ensures !InRange(current) ==> r == s.(speed := 0.0)
    ensures InRange(current) ==> r.lastError == s.targetLength - current
    ensures InRange(current) ==> r.errorSum == s.errorSum + r.lastError * Dt
    ensures InRange(current) ==> r.speed == Command(r.lastError, r.errorSum, s.lastError)
    ensures r.targetLength == s.targetLength && r.minPot == s.minPot && r.maxPot == s.maxPot
  {
    if !InRange(current) then s.(speed := 0.0)
    else
      var error := s.targetLength - current;
      var errorSum := s.errorSum + error * Dt;
      s.(errorSum := errorSum, lastError := error, speed := Command(error, errorSum, s.lastError))
  }

  /** A run of `update` calls, one per measured length. */
  function Run(s: State, currents: seq<real>): State
    decreases |currents|
  {
    if |currents| == 0 then s else Run(Step(s, currents[0]), currents[1..])
  }

  /** Sum of the errors `target - c` over the measured lengths the guard accepts. */
  function ErrorTotal(target: real, currents: seq<real>): real
    decreases |currents|
  {
    if |currents| == 0 then 0.0
    else (if InRange(currents[0]) then target - currents[0] else 0.0) + ErrorTotal(target, currents[1..])
  }

  /** The integral term is the interval-weighted sum of the accepted errors; the target is untouched. */
  lemma {:induction false} RunIntegrates(s: State, currents: seq<real>)
    ensures Run(s, currents).errorSum == s.errorSum + ErrorTotal(s.targetLength, currents) * Dt
    ensures Run(s, currents).targetLength == s.targetLength
    decreases |currents|
  {
    if |currents| > 0 {
      RunIntegrates(Step(s, currents[0]), currents[1..]);
    }
  }

  /** Readings outside [ACTUATOR_MIN_LENGTH, ACTUATOR_MAX_LENGTH] never move the PID state and leave the motor stopped. */
  lemma {:induction false} RunOutOfRange(s: State, currents: seq<real>)
    requires |currents| > 0 && forall i :: 0 <= i < |currents| ==> !InRange(currents[i])
    ensures Run(s, currents) == s.(speed := 0.0)
    decreases |currents|
  {
    if |currents| > 1 {
      RunOutOfRange(Step(s, currents[0]), currents[1..]);
    }
  }

  /** `getLength`: Arduino `map` of the raw reading onto the integer parts of the length limits. */
  function LengthFromPot(raw: int, minPot: int, maxPot: int): (len: real)
    requires minPot != maxPot
    ensures raw == minPot ==> len == 277.0
  {
    ArduinoMap(raw, minPot, maxPot, ActuatorMinLength.Floor, ActuatorMaxLength.Floor) as real
  }

  /** A reading inside the calibrated range maps inside [277, 379]. */
  lemma LengthFromPotWithin(raw: int, minPot: int, maxPot: int)
    requires minPot < maxPot && minPot <= raw <= maxPot
    ensures 277.0 <= LengthFromPot(raw, minPot, maxPot) <= 379.0
  {
    ArduinoMapWithin(raw, minPot, maxPot, 277, 379);
  }

  /**
   * `map` truncates ACTUATOR_MIN_LENGTH to 277, below the 277.955 the guard of `update`
   * accepts: at the calibrated minimum `update` reports the actuator out of bounds.
   */
  lemma CalibratedMinimumIsOutOfRange(minPot: int, maxPot: int)
    requires minPot != maxPot
    ensures !InRange(LengthFromPot(minPot, minPot, maxPot))
  {
  }

  class Actuator {
    const actuatorNb: int
    var minPotValue: int
    var maxPotValue: int
    var targetLength: real
    var errorSum: real
    var lastError: real
    /** The last speed handed to the motor driver's `setSpeed`. */
    var speed: real

    function Snapshot(): State
      reads this
    {
      State(targetLength, errorSum, lastError, speed, minPotValue, maxPotValue)
    }

    constructor (actNb: int)
      ensures actuatorNb == actNb && Snapshot() == State(0.0, 0.0, 0.0, 0.0, 0, 0)
    {
      actuatorNb := actNb;
      minPotValue, maxPotValue := 0, 0;
      targetLength, errorSum, lastError, speed := 0.0, 0.0, 0.0, 0.0;
    }

    method SetTargetLength(length: real)
      modifies this`targetLength
      ensures Snapshot() == old(Snapshot()).(targetLength := Clamp(length, ActuatorMinLength, ActuatorMaxLength))
      ensures ActuatorMinLength <= targetLength <= ActuatorMaxLength
    {
      targetLength := Clamp(length, ActuatorMinLength, ActuatorMaxLength);
    }

    /** One PID step; refuses (and stops the motor) when the measured length is out of bounds. */
    method Update(current: real) returns (ok: bool)
      modifies this`errorSum, this`lastError, this`speed
      ensures ok == InRange(current)
      ensures Snapshot() == Step(old(Snapshot()), current)
    {
      if current < ActuatorMinLength || current > ActuatorMaxLength {
        speed := 0.0;
        return false;
      }
      var error := targetLength - current;
      errorSum := errorSum + error * Dt;
      var dError := (error - lastError) / Dt;
      var output := Kp * error + Ki * errorSum + Kd * dError;
      speed := output;
      lastError := error;
      return true;
    }

    method Stop()
      modifies this`speed
      ensures Snapshot() == old(Snapshot()).(speed := 0.0)
    {
      speed := 0.0;
    }

    method SetSpeed(s: int)
      modifies this`speed
      ensures Snapshot() == old(Snapshot()).(speed := s as real)
    {
      speed := s as real;
    }

    method SetMin(min: int)
      modifies this`minPotValue
      ensures Snapshot() == old(Snapshot()).(minPot := min)
    {
      minPotValue := min;
    }

    method SetMax(max: int)
      modifies this`maxPotValue
      ensures Snapshot() == old(Snapshot()).(maxPot := max)
    {
      maxPotValue := max;
    }
  }
}
