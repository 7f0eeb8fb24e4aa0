/**
 * StewartPlatform.cpp: the earlier platform over the self-calibrating actuators of
 * Actuator.cpp. Its `update` steps all six actuators with no early exit, and calibration
 * hands each actuator its own pair of potentiometer bursts in turn.
 */
module LegacyStewartPlatform {
  import opened Config
  import opened Utils
  import opened Kinematics
  import opened Sampling
  import A = Actuator
  import L = LegacyActuator

  class StewartPlatform {
    const actuators: array<L.Actuator>
    const targetLengths: array<real>

    ghost predicate Valid()
      reads actuators
    {
      && actuators.Length == NumActuators
      && targetLengths.Length == NumActuators
      && forall i, j :: 0 <= i < j < actuators.Length ==> actuators[i] != actuators[j]
    }

    ghost function Actuators(): set<L.Actuator>
      reads actuators
    {
      set i | 0 <= i < actuators.Length :: actuators[i]
    }

    constructor ()
      ensures Valid() && fresh(actuators) && fresh(targetLengths) && fresh(Actuators())
      ensures forall i :: 0 <= i < actuators.Length ==>
        actuators[i].actuatorNb == i && actuators[i].Snapshot() == A.State(0.0, 0.0, 0.0, 0.0, 0, 0)
    {
      var made: seq<L.Actuator> := [];
      for i := 0 to NumActuators
        invariant |made| == i
        invariant forall j :: 0 <= j < i ==> fresh(made[j])
        invariant forall j :: 0 <= j < i ==> made[j].actuatorNb == j && made[j].Snapshot() == A.State(0.0, 0.0, 0.0, 0.0, 0, 0)
        invariant forall j, k :: 0 <= j < k < i ==> made[j] != made[k]
      {
        var a := new L.Actuator(i);
        made := made + [a];
      }
      actuators := new L.Actuator[NumActuators](i requires 0 <= i < NumActuators => made[i]);
      targetLengths := new real[NumActuators];
    }

    /** Store the raw inverse-kinematics lengths and give each actuator its clamped length. */
    method MoveToPose(pose: Pose, inverse: Pose -> seq<real>)
      requires Valid() && SixLengths(inverse, pose)
      modifies targetLengths, Actuators()
      ensures targetLengths[..] == inverse(pose)
      ensures forall i :: 0 <= i < NumActuators ==>
        actuators[i].Snapshot() == old(actuators[i].Snapshot()).(targetLength := Clamp(inverse(pose)[i], ActuatorMinLength, ActuatorMaxLength))
    {
      var lengths := inverse(pose);
      forall i | 0 <= i < NumActuators {
        targetLengths[i] := lengths[i];
      }
      for i := 0 to NumActuators
        invariant targetLengths[..] == lengths
        invariant forall j :: 0 <= j < i ==>
          actuators[j].Snapshot() == old(actuators[j].Snapshot()).(targetLength := Clamp(lengths[j], ActuatorMinLength, ActuatorMaxLength))
        invariant forall j :: i <= j < NumActuators ==> actuators[j].Snapshot() == old(actuators[j].Snapshot())
      {
        var clamped := Clamp(targetLengths[i], ActuatorMinLength, ActuatorMaxLength);
        actuators[i].SetTargetLength(clamped);
        ClampIdempotent(lengths[i], ActuatorMinLength, ActuatorMaxLength);
      }
    }

    /** Every actuator takes its PID step, whatever the others measured. */
    method Update(currents: seq<real>)
      requires Valid() && |currents| == NumActuators
      modifies Actuators()
      ensures forall i :: 0 <= i < NumActuators ==>
        actuators[i].Snapshot() == A.Step(old(actuators[i].Snapshot()), currents[i])
    {
      for i := 0 to NumActuators
        invariant forall j :: 0 <= j < i ==> actuators[j].Snapshot() == A.Step(old(actuators[j].Snapshot()), currents[j])
        invariant forall j :: i <= j < NumActuators ==> actuators[j].Snapshot() == old(actuators[j].Snapshot())
      {
        actuators[i].Update(currents[i]);
      }
    }

    /** Calibrate actuators 0..5 in order, each from its own extended and retracted bursts. */
    method CalibrateActuators(extended: seq<seq<int>>, retracted: seq<seq<int>>)
      requires Valid()
      requires |extended| == NumActuators && |retracted| == NumActuators
      requires forall i :: 0 <= i < NumActuators ==> |extended[i]| == CalibSamples && |retracted[i]| == CalibSamples
      modifies Actuators()
      ensures forall i :: 0 <= i < NumActuators ==>
        actuators[i].Snapshot() == old(actuators[i].Snapshot()).(speed := 0.0, maxPot := SeqMax(extended[i]), minPot := SeqMin(retracted[i]))
    {
      for i := 0 to NumActuators
        invariant forall j :: 0 <= j < i ==>
          actuators[j].Snapshot() == old(actuators[j].Snapshot()).(speed := 0.0, maxPot := SeqMax(extended[j]), minPot := SeqMin(retracted[j]))
        invariant forall j :: i <= j < NumActuators ==> actuators[j].Snapshot() == old(actuators[j].Snapshot())
      {
        actuators[i].Calibrate(extended[i], retracted[i]);
      }
    }
  }
}
