/**
 * main/StewartPlatform.cpp: six actuators driven together. Inverse kinematics is passed in
 * as a function from a pose to six lengths; the measured lengths of an `update` and the
 * potentiometer bursts of a calibration are passed in as sequences, one entry per actuator.
 */
module StewartPlatform {
  import opened Config
  import opened Utils
  import opened Kinematics
  import opened Sampling
  import A = Actuator

  /** The first actuator at or after `from` whose measured length the guard refuses, or |currents|. */
  function FirstOutOfRange(currents: seq<real>, from: nat): (k: nat)
    requires from <= |currents|
    ensures from <= k <= |currents|
    ensures k < |currents| ==> !A.InRange(currents[k])
    ensures forall j :: from <= j < k ==> A.InRange(currents[j])
    decreases |currents| - from
  {
    if from == |currents| || !A.InRange(currents[from]) then from else FirstOutOfRange(currents, from + 1)
  }

  /** Calibration accepts an actuator whose extremes are ordered and at least CALIB_MIN_DIF apart. */
  predicate SpanAccepted(max: int, min: int) {
    !(min > max) && !(max - min < CalibMinDif)
  }

  /** The second test alone decides: a reversed pair is also too narrow. */
  lemma SpanAcceptedIff(max: int, min: int)
    ensures SpanAccepted(max, min) <==> max - min >= CalibMinDif
  {
  }

  /** The first actuator at or after `from` whose calibration bursts are rejected, or |maxes|. */
  function FirstRejected(maxes: seq<seq<int>>, mins: seq<seq<int>>, from: nat): (k: nat)
    requires |maxes| == |mins| && from <= |maxes|
    requires forall i :: 0 <= i < |maxes| ==> |maxes[i]| > 0 && |mins[i]| > 0
    ensures from <= k <= |maxes|
    ensures k < |maxes| ==> !SpanAccepted(SeqMax(maxes[k]), SeqMin(mins[k]))
    ensures forall j :: from <= j < k ==> SpanAccepted(SeqMax(maxes[j]), SeqMin(mins[j]))
    decreases |maxes| - from
  {
    if from == |maxes| || !SpanAccepted(SeqMax(maxes[from]), SeqMin(mins[from])) then from
    else FirstRejected(maxes, mins, from + 1)
  }

  /** A rejected pair no earlier than the first rejection is the first rejection. */
  lemma FirstRejectedAt(maxes: seq<seq<int>>, mins: seq<seq<int>>, i: nat)
    requires |maxes| == |mins| && i < |maxes|
    requires forall j :: 0 <= j < |maxes| ==> |maxes[j]| > 0 && |mins[j]| > 0
    requires i <= FirstRejected(maxes, mins, 0) && !SpanAccepted(SeqMax(maxes[i]), SeqMin(mins[i]))
    ensures FirstRejected(maxes, mins, 0) == i
  {
  }

  /** One burst of 11 readings per actuator. */
  predicate Bursts(samples: seq<seq<int>>) {
    |samples| == NumActuators && forall i :: 0 <= i < |samples| ==> |samples[i]| == CalibSamples
  }

  class StewartPlatform {
    const actuators: array<A.Actuator>
    const targetLengths: array<real>
    /** The kinematics object's configuration. */
    var rotationCenter: (real, real, real)
    var homePose: Pose

    ghost predicate Valid()
      reads actuators
    {
      && actuators.Length == NumActuators
      && targetLengths.Length == NumActuators
      && forall i, j :: 0 <= i < j < actuators.Length ==> actuators[i] != actuators[j]
    }

    ghost function Actuators(): set<A.Actuator>
      reads actuators
    {
      set i | 0 <= i < actuators.Length :: actuators[i]
    }

    constructor ()
      ensures Valid() && fresh(actuators) && fresh(targetLengths) && fresh(Actuators())
      ensures forall i :: 0 <= i < actuators.Length ==>
        actuators[i].actuatorNb == i && actuators[i].Snapshot() == A.State(0.0, 0.0, 0.0, 0.0, 0, 0)
      ensures rotationCenter == (0.0, 0.0, 0.0) && homePose == ZeroPose
    {
      var made: seq<A.Actuator> := [];
      for i := 0 to NumActuators
        invariant |made| == i
        invariant forall j :: 0 <= j < i ==> fresh(made[j])
        invariant forall j :: 0 <= j < i ==> made[j].actuatorNb == j && made[j].Snapshot() == A.State(0.0, 0.0, 0.0, 0.0, 0, 0)
        invariant forall j, k :: 0 <= j < k < i ==> made[j] != made[k]
      {
        var a := new A.Actuator(i);
        made := made + [a];
      }
      actuators := new A.Actuator[NumActuators](i requires 0 <= i < NumActuators => made[i]);
      targetLengths := new real[NumActuators];
      rotationCenter := (0.0, 0.0, 0.0);
      homePose := ZeroPose;
    }

    /** Configure the kinematics; the actuators' own `begin` only sets up pins. */
    method Begin()
      modifies this`rotationCenter, this`homePose
      ensures rotationCenter == (0.0, 102.0, 83.0)
      ensures homePose == Pose(0.0, -50.0, 0.0, 0.0, 0.0, 0.0)
    {
      rotationCenter := (0.0, 102.0, 83.0);
      homePose := Pose(0.0, -50.0, 0.0, 0.0, 0.0, 0.0);
    }

    /** Store the raw inverse-kinematics lengths and give each actuator its clamped length. */
    method MoveToPose(pose: Pose, inverse: Pose -> seq<real>)
      requires Valid() && SixLengths(inverse, pose)
      modifies targetLengths, Actuators()
      ensures targetLengths[..] == inverse(pose)
      ensures forall i :: 0 <= i < NumActuators ==>
        actuators[i].Snapshot() == old(actuators[i].Snapshot()).(targetLength := Clamp(inverse(pose)[i], ActuatorMinLength, ActuatorMaxLength))
      ensures forall i :: 0 <= i < NumActuators ==> ActuatorMinLength <= actuators[i].targetLength <= ActuatorMaxLength
    {
      var lengths := inverse(pose);
      forall i | 0 <= i < NumActuators {
        targetLengths[i] := lengths[i];
      }
      for i := 0 to NumActuators
        invariant targetLengths[..] == lengths
        invariant forall j :: 0 <= j < i ==>
          actuators[j].Snapshot() == old(actuators[j].Snapshot()).(targetLength := Clamp(lengths[j], ActuatorMinLength, ActuatorMaxLength))
        invariant forall j :: i <= j < NumActuators ==> actuators[j].Snapshot() == old(actuators[j].Snapshot())
      {
        var clamped := Clamp(targetLengths[i], ActuatorMinLength, ActuatorMaxLength);
        actuators[i].SetTargetLength(clamped);
        ClampIdempotent(lengths[i], ActuatorMinLength, ActuatorMaxLength);
      }
    }

    /**
     * Step each actuator in turn with its measured length, stopping at the first that
     * refuses; the actuators after it are not touched.
     */
    method Update(currents: seq<real>) returns (ok: bool)
      requires Valid() && |currents| == NumActuators
      modifies Actuators()
      ensures ok <==> forall i :: 0 <= i < NumActuators ==> A.InRange(currents[i])
      ensures forall i :: 0 <= i < NumActuators ==>
        actuators[i].Snapshot() ==
          if i <= FirstOutOfRange(currents, 0) then A.Step(old(actuators[i].Snapshot()), currents[i])
          else old(actuators[i].Snapshot())
    {
      ghost var k := FirstOutOfRange(currents, 0);
      for i := 0 to NumActuators
        invariant i <= k
        invariant forall j :: 0 <= j < i ==> actuators[j].Snapshot() == A.Step(old(actuators[j].Snapshot()), currents[j])
        invariant forall j :: i <= j < NumActuators ==> actuators[j].Snapshot() == old(actuators[j].Snapshot())
      {
        var stepped := actuators[i].Update(currents[i]);
        if !stepped {
          return false;
        }
      }
      return true;
    }

    method Stop()
      requires Valid()
      modifies Actuators()
      ensures forall i :: 0 <= i < NumActuators ==> actuators[i].Snapshot() == old(actuators[i].Snapshot()).(speed := 0.0)
    {
      for i := 0 to NumActuators
        invariant forall j :: 0 <= j < i ==> actuators[j].Snapshot() == old(actuators[j].Snapshot()).(speed := 0.0)
        invariant forall j :: i <= j < NumActuators ==> actuators[j].Snapshot() == old(actuators[j].Snapshot())
      {
        actuators[i].Stop();
      }
    }

    /** Command every actuator at `speed` (the body of the timed extend/retract loops). */
    method DriveAll(speed: int)
      requires Valid()
      modifies Actuators()
      ensures forall i :: 0 <= i < NumActuators ==> actuators[i].Snapshot() == old(actuators[i].Snapshot()).(speed := speed as real)
    {
      for i := 0 to NumActuators
        invariant forall j :: 0 <= j < i ==> actuators[j].Snapshot() == old(actuators[j].Snapshot()).(speed := speed as real)
        invariant forall j :: i <= j < NumActuators ==> actuators[j].Snapshot() == old(actuators[j].Snapshot())
      {
        actuators[i].SetSpeed(speed);
      }
    }

    /** Set each actuator's maximum to the largest reading of its burst. */
    method RecordMaxima(extended: seq<seq<int>>)
      requires Valid() && Bursts(extended)
      modifies Actuators()
      ensures forall i :: 0 <= i < NumActuators ==> actuators[i].Snapshot() == old(actuators[i].Snapshot()).(maxPot := SeqMax(extended[i]))
    {
      for i := 0 to NumActuators
        invariant forall j :: 0 <= j < i ==> actuators[j].Snapshot() == old(actuators[j].Snapshot()).(maxPot := SeqMax(extended[j]))
        invariant forall j :: i <= j < NumActuators ==> actuators[j].Snapshot() == old(actuators[j].Snapshot())
      {
        var max := MaxReading(extended[i]);
        actuators[i].SetMax(max);
      }
    }

    /**
     * Set each actuator's minimum to the smallest reading of its burst and check it against
     * the maximum, giving up at the first actuator that fails.
     */
    method RecordMinima(extended: seq<seq<int>>, retracted: seq<seq<int>>) returns (ok: bool)
      requires Valid() && Bursts(extended) && Bursts(retracted)
      requires forall i :: 0 <= i < NumActuators ==> actuators[i].maxPotValue == SeqMax(extended[i])
      modifies Actuators()
      ensures ok <==> forall i :: 0 <= i < NumActuators ==> SpanAccepted(SeqMax(extended[i]), SeqMin(retracted[i]))
      ensures forall i :: 0 <= i < NumActuators ==>
        actuators[i].Snapshot() ==
          if i <= FirstRejected(extended, retracted, 0) then old(actuators[i].Snapshot()).(minPot := SeqMin(retracted[i]))
          else old(actuators[i].Snapshot())
    {
      ghost var k := FirstRejected(extended, retracted, 0);
      for i := 0 to NumActuators
        invariant i <= k
        invariant forall j :: 0 <= j < i ==> actuators[j].Snapshot() == old(actuators[j].Snapshot()).(minPot := SeqMin(retracted[j]))
        invariant forall j :: i <= j < NumActuators ==> actuators[j].Snapshot() == old(actuators[j].Snapshot())
        invariant forall j :: i <= j < NumActuators ==> actuators[j].maxPotValue == SeqMax(extended[j])
      {
        var accepted := RecordMinimum(i, retracted[i]);
        if !accepted {
          FirstRejectedAt(extended, retracted, i);
          return false;
        }
      }
      return true;
    }

    /**
     * One actuator of the second pass: its minimum becomes the smallest reading, and it is
     * accepted unless that minimum exceeds its maximum or lies less than CALIB_MIN_DIF below it.
     */
    method RecordMinimum(i: nat, readings: seq<int>) returns (accepted: bool)
      requires Valid() && i < NumActuators && |readings| > 0
      modifies actuators[i]
      ensures accepted <==> SpanAccepted(old(actuators[i].maxPotValue), SeqMin(readings))
      ensures forall j :: 0 <= j < NumActuators ==>
        actuators[j].Snapshot() == if j == i then old(actuators[j].Snapshot()).(minPot := SeqMin(readings)) else old(actuators[j].Snapshot())
    {
      var min := MinReading(readings);
      assert forall j :: 0 <= j < NumActuators && j != i ==> actuators[j] != actuators[i];
      actuators[i].SetMin(min);
      if min > actuators[i].maxPotValue {
        return false;
      } else if actuators[i].maxPotValue - min < CalibMinDif {
        return false;
      }
      return true;
    }

    /**
     * Extend all, stop, record maxima; retract all, stop, record and check minima.
     * Succeeds iff every actuator's extremes are at least CALIB_MIN_DIF apart.
     */
    method CalibrateActuators(extended: seq<seq<int>>, retracted: seq<seq<int>>) returns (ok: bool)
      requires Valid() && Bursts(extended) && Bursts(retracted)
      modifies Actuators()
      ensures ok <==> forall i :: 0 <= i < NumActuators ==> SeqMax(extended[i]) - SeqMin(retracted[i]) >= CalibMinDif
      ensures forall i :: 0 <= i < NumActuators ==> actuators[i].Snapshot() == old(actuators[i].Snapshot()).(
        speed := 0.0,
        maxPot := SeqMax(extended[i]),
        minPot := if i <= FirstRejected(extended, retracted, 0) then SeqMin(retracted[i]) else old(actuators[i].minPotValue))
    {
      DriveAll(255);
      Stop();
      RecordMaxima(extended);
      DriveAll(-255);
      Stop();
      ok := RecordMinima(extended, retracted);
      forall i | 0 <= i < NumActuators
        ensures SpanAccepted(SeqMax(extended[i]), SeqMin(retracted[i])) <==> SeqMax(extended[i]) - SeqMin(retracted[i]) >= CalibMinDif
      {
        SpanAcceptedIff(SeqMax(extended[i]), SeqMin(retracted[i]));
      }
    }
  }
}
