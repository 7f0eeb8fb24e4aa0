/**
 * Actuator.cpp: the earlier actuator, whose `update` reports nothing and which calibrates
 * itself by driving to each end stop and sampling its potentiometer. Potentiometer reads
 * arrive as sequences; the delays between them are not modelled.
 */
module LegacyActuator {
  import opened Config
  import opened Utils
  import opened Sampling
  import A = Actuator

  class Actuator {
    const actuatorNb: int
    var minPotValue: int
    var maxPotValue: int
    var targetLength: real
    var errorSum: real
    var lastError: real
    /** The last speed handed to the motor driver's `setSpeed`. */
    var speed: real

    function Snapshot(): A.State
      reads this
    {
      A.State(targetLength, errorSum, lastError, speed, minPotValue, maxPotValue)
    }

    constructor (actNb: int)
      ensures actuatorNb == actNb && Snapshot() == A.State(0.0, 0.0, 0.0, 0.0, 0, 0)
    {
      actuatorNb := actNb;
      minPotValue, maxPotValue := 0, 0;
      targetLength, errorSum, lastError, speed := 0.0, 0.0, 0.0, 0.0;
    }

    method SetTargetLength(length: real)
      modifies this`targetLength
      ensures Snapshot() == old(Snapshot()).(targetLength := Clamp(length, ActuatorMinLength, ActuatorMaxLength))
      ensures ActuatorMinLength <= targetLength <= ActuatorMaxLength
    {
      targetLength := Clamp(length, ActuatorMinLength, ActuatorMaxLength);
    }

    /** The same guarded PID step as the newer actuator, without reporting whether it ran. */
    method Update(current: real)
      modifies this`errorSum, this`lastError, this`speed
      ensures Snapshot() == A.Step(old(Snapshot()), current)
    {
      if current < ActuatorMinLength || current > ActuatorMaxLength {
        speed := 0.0;
        return;
      }
      var error := targetLength - current;
      errorSum := errorSum + error * Dt;
      var dError := (error - lastError) / Dt;
      var output := Kp * error + Ki * errorSum + Kd * dError;
      speed := output;
      lastError := error;
    }

    method Stop()
      modifies this`speed
      ensures Snapshot() == old(Snapshot()).(speed := 0.0)
    {
      speed := 0.0;
    }

    /**
     * Extend at full speed and keep the largest of the readings `extended`, then retract at
     * full speed and keep the smallest of `retracted`, then stop. Each burst is one read
     * followed by ten more.
     */
    method Calibrate(extended: seq<int>, retracted: seq<int>)
      requires |extended| == CalibSamples && |retracted| == CalibSamples
      modifies this`minPotValue, this`maxPotValue, this`speed
      ensures maxPotValue == SeqMax(extended) && minPotValue == SeqMin(retracted)
      ensures Snapshot() == old(Snapshot()).(minPot := minPotValue, maxPot := maxPotValue, speed := 0.0)
    {
      speed := 255.0;
      maxPotValue := extended[0];
      var i := 1;
      while i < |extended|
        invariant 1 <= i <= |extended|
        invariant (exists j :: 0 <= j < i && extended[j] == maxPotValue)
        invariant forall j :: 0 <= j < i ==> extended[j] <= maxPotValue
      {
        if extended[i] > maxPotValue {
          maxPotValue := extended[i];
        }
        i := i + 1;
      }

      speed := -255.0;
      minPotValue := retracted[0];
      i := 1;
      while i < |retracted|
        invariant 1 <= i <= |retracted|
        invariant maxPotValue == SeqMax(extended)
        invariant (exists j :: 0 <= j < i && retracted[j] == minPotValue)
        invariant forall j :: 0 <= j < i ==> minPotValue <= retracted[j]
      {
        if retracted[i] < minPotValue {
          minPotValue := retracted[i];
        }
        i := i + 1;
      }

      speed := 0.0;
    }
  }
}
