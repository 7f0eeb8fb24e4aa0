/**
 * main/RobotController.cpp: the top-level state machine (CALIBRATING, MOVING, STOP).
 *
 * The controller's collaborators are reached through calls its platform and force-sensing
 * objects receive; the model records those calls, in order, in `calls`. Their outcomes
 * (whether the platform update succeeded, whether a trajectory file loaded) and the clock
 * (`millis`) are parameters. The trajectory object is the modelled waypoint trajectory,
 * from which MOVING reads its target pose.
 */
module RobotController {
  import opened Config
  import opened Utils
  import opened Wrappers
  import opened Kinematics
  import T = Trajectory

  datatype RobotState = Calibrating | Moving | Stop

  /** A call the controller makes on the platform or on the force-sensing unit. */
  datatype Call =
    | PlatformBegin
    | PlatformCalibrate
    | PlatformStop
    | PlatformMoveTo(pose: Pose, absolute: bool)
    | PlatformMoveHome
    | PlatformUpdate
    | PlatformSetHome(pose: Pose)
    | ForceUpdate

  /** The two transitions `setState` refuses. */
  predicate Forbidden(from: RobotState, to: RobotState)
    ensures Forbidden(from, to) ==> from != to && from != Stop && to != Stop
  {
    (from == Moving && to == Calibrating) || (from == Calibrating && to == Moving)
  }

  /** The state after `setState(to)` in state `from`. */
  function Next(from: RobotState, to: RobotState): (r: RobotState)
    ensures r == to || r == from
    ensures r == to <==> !Forbidden(from, to)
    ensures to == Stop ==> r == Stop
  {
    if to == from then from
    else if Forbidden(from, to) then from
    else to
  }

  /** The calls the entry hook of a state change makes: entering CALIBRATING or STOP stops the platform. */
  function EntryCalls(from: RobotState, to: RobotState): (cs: seq<Call>)
    ensures |cs| <= 1
    ensures cs == [PlatformStop] <==> from != to && !Forbidden(from, to) && to != Moving
  {
    if from == to || Forbidden(from, to) then []
    else if to == Moving then []
    else [PlatformStop]
  }

  /** The states visited by a series of `setState` requests, starting state included. */
  function Visited(s: RobotState, requests: seq<RobotState>): (v: seq<RobotState>)
    ensures |v| == |requests| + 1 && v[0] == s
    decreases |requests|
  {
    if |requests| == 0 then [s] else [s] + Visited(Next(s, requests[0]), requests[1..])
  }

  /** No series of requests ever moves directly between MOVING and CALIBRATING. */
  lemma {:induction false} VisitedNeverJumps(s: RobotState, requests: seq<RobotState>)
    ensures forall i :: 0 < i < |Visited(s, requests)| ==> !Forbidden(Visited(s, requests)[i - 1], Visited(s, requests)[i])
    decreases |requests|
  {
    if |requests| > 0 {
      var v := Visited(s, requests);
      var rest := Visited(Next(s, requests[0]), requests[1..]);
      VisitedNeverJumps(Next(s, requests[0]), requests[1..]);
      assert v == [s] + rest;
      forall i | 0 < i < |v|
        ensures !Forbidden(v[i - 1], v[i])
      {
        if i > 1 {
          assert v[i - 1] == rest[i - 2] && v[i] == rest[i - 1];
        }
      }
    }
  }

  /** Leaving MOVING for CALIBRATING (or back) always passes through STOP. */
  lemma {:induction false} CalibratingFromMovingPassesStop(s: RobotState, requests: seq<RobotState>, j: nat)
    requires s == Moving && j < |Visited(s, requests)| && Visited(s, requests)[j] == Calibrating
    ensures exists i :: 0 < i < j && Visited(s, requests)[i] == Stop
  {
    var v := Visited(s, requests);
    VisitedNeverJumps(s, requests);
    var k := 0;
    while k + 1 < j && v[k + 1] == Moving
      invariant 0 <= k < j && v[k] == Moving
      decreases j - k
    {
      k := k + 1;
    }
    assert v[k + 1] != Calibrating;
    assert k + 1 < j;
  }

  /**
   * The calls of one periodic handler in state `from`: when due, the platform calls `sent`,
   * followed by the switch to STOP when the platform update failed.
   */
  function PeriodicCalls(due: bool, sent: seq<Call>, from: RobotState, platformOk: bool): (cs: seq<Call>)
    ensures !due ==> cs == []
    ensures due && platformOk ==> cs == sent
    ensures due && !platformOk && from != Stop ==> cs == sent + [PlatformStop]
  {
    if !due then [] else sent + (if platformOk then [] else EntryCalls(from, Stop))
  }

  /** The refresh gate of the periodic handlers: at least one update interval has elapsed, modulo 2^32. */
  predicate Due(now: nat, last: nat)
    ensures last <= now < last + U32Modulus ==> (Due(now, last) <==> now - last >= PlatformUpdateInterval)
  {
    ElapsedU32(now, last) >= PlatformUpdateInterval
  }

  class RobotController {
    var state: RobotState
    var trajectoryInitTime: nat
    var calibrationTargetPose: Pose
    var trajectoryFileName: string
    var loadedTrajectoryFileName: string
    var fixedInterval: nat
    /** The fixed interval the trajectory was last configured with. */
    var trajectoryFixedInterval: nat
    /** The function-static timers of `calibrate`, `move` and `stop`. */
    var calibrateInit: Option<nat>
    var calibrateLast: nat
    var moveLast: nat
    var stopInit: Option<nat>
    var stopLast: nat
    var calls: seq<Call>
    const trajectory: T.Trajectory

    ghost predicate Valid()
      reads this, trajectory, trajectory.points
    {
      trajectory.Valid()
    }

    constructor (initial: RobotState, fileName: string)
      ensures Valid() && fresh(trajectory) && trajectory.Stored() == []
      ensures state == initial && trajectoryFileName == fileName && loadedTrajectoryFileName == ""
      ensures calls == [] && calibrateInit == None && stopInit == None
      ensures moveLast == 0 && calibrateLast == 0 && stopLast == 0
    {
      state := initial;
      trajectoryInitTime := 0;
      calibrationTargetPose := ZeroPose;
      trajectoryFileName := fileName;
      loadedTrajectoryFileName := "";
      fixedInterval, trajectoryFixedInterval := 0, 0;
      calibrateInit, calibrateLast := None, 0;
      moveLast := 0;
      stopInit, stopLast := None, 0;
      calls := [];
      trajectory := new T.Trajectory();
    }

    /** Request a state change; a refused change leaves everything as it was. */
    method SetState(newState: RobotState, millis: nat) returns (ok: bool)
      requires millis < U32Modulus
      modifies this`state, this`calls, this`trajectoryInitTime
      ensures ok <==> !Forbidden(old(state), newState)
      ensures state == Next(old(state), newState)
      ensures calls == old(calls) + EntryCalls(old(state), newState)
      ensures trajectoryInitTime ==
        if old(state) != Moving && state == Moving then millis else old(trajectoryInitTime)
    {
      if newState == state {
        return true;
      }
      var prevState := state;
      if prevState == Moving && newState == Calibrating {
        return false;
      }
      if prevState == Calibrating && newState == Moving {
        return false;
      }
      state := newState;
      match newState {
        case Calibrating => OnEnterCalibrating();
        case Moving => OnEnterMoving(millis);
        case Stop => OnEnterStop();
      }
      return true;
    }

    method OnEnterCalibrating()
      modifies this`calls
      ensures calls == old(calls) + [PlatformStop]
    {
      calls := calls + [PlatformStop];
    }

    method OnEnterMoving(millis: nat)
      modifies this`trajectoryInitTime
      ensures trajectoryInitTime == millis
    {
      trajectoryInitTime := millis;
    }

    method OnEnterStop()
      modifies this`calls
      ensures calls == old(calls) + [PlatformStop]
    {
      calls := calls + [PlatformStop];
    }

    method SetPlatformHomePose(pose: Pose)
      modifies this`calls
      ensures calls == old(calls) + [PlatformSetHome(pose)]
    {
      calls := calls + [PlatformSetHome(pose)];
    }

    /** Only meaningful while calibrating; otherwise nothing changes. */
    method SetCalibrationTargetPose(pose: Pose)
      modifies this`calibrationTargetPose
      ensures calibrationTargetPose == if state == Calibrating then pose else old(calibrationTargetPose)
    {
      if state == Calibrating {
        calibrationTargetPose := pose;
      }
    }

    method SetFixedInterval(interval: nat)
      modifies this`fixedInterval
      ensures fixedInterval == interval
    {
      fixedInterval := interval;
    }

    /** `loaded` is the outcome of reading the CSV file; the loaded name follows only a success. */
    method LoadTrajectoryFromFile(fileName: string, loaded: bool) returns (ok: bool)
      modifies this`loadedTrajectoryFileName
      ensures ok == loaded
      ensures loadedTrajectoryFileName == if loaded then fileName else old(loadedTrajectoryFileName)
    {
      if loaded {
        loadedTrajectoryFileName := fileName;
      } else {
        return false;
      }
      return true;
    }

    /**
     * Start the platform, calibrate it and load the configured trajectory; a failure of
     * either step switches to STOP and reports false.
     */
    method Begin(calibrated: bool, loaded: bool, millis: nat) returns (ok: bool)
      requires millis < U32Modulus
      modifies this`state, this`calls, this`trajectoryInitTime, this`loadedTrajectoryFileName
      ensures ok <==> calibrated && loaded
      ensures !ok ==> state == Stop
      ensures ok ==> state == old(state)
      ensures loadedTrajectoryFileName == if calibrated && loaded then trajectoryFileName else old(loadedTrajectoryFileName)
      ensures calls == old(calls) + [PlatformBegin, PlatformCalibrate] + (if ok then [] else EntryCalls(old(state), Stop))
      ensures trajectoryInitTime == old(trajectoryInitTime)
    {
      calls := calls + [PlatformBegin, PlatformCalibrate];
      if !calibrated {
        var _ := SetState(Stop, millis);
        return false;
      }
      var fileOk := LoadTrajectoryFromFile(trajectoryFileName, loaded);
      if !fileOk {
        var _ := SetState(Stop, millis);
        return false;
      }
      return true;
    }

    /**
     * One pass of the main loop: run the handler of the current state. Each branch states
     * what that handler does; the timers of the other handlers, the trajectory start time,
     * the calibration target and the configured file name and interval are not touched.
     */
    method Update(millis: nat, platformOk: bool, loaded: bool, reloaded: bool)
      requires Valid() && millis < U32Modulus
      modifies this`state, this`calls, this`moveLast, this`calibrateInit, this`calibrateLast,
               this`stopInit, this`stopLast, this`loadedTrajectoryFileName, this`trajectoryFixedInterval,
               this`trajectoryInitTime
      ensures Valid() && trajectoryInitTime == old(trajectoryInitTime)
      ensures old(state) == Moving ==>
        var now := ElapsedU32(millis, trajectoryInitTime);
        var due := Due(now, old(moveLast));
        && calls == old(calls) + PeriodicCalls(due,
             [PlatformMoveTo(T.PoseAt(trajectory.Stored(), now), false), PlatformUpdate], Moving, platformOk)
        && moveLast == (if due then now else old(moveLast))
        && state == (if due && !platformOk then Stop else Moving)
      ensures old(state) == Calibrating ==>
        && calibrateInit == (if old(calibrateInit).None? then Some(millis) else old(calibrateInit))
        && var now := ElapsedU32(millis, calibrateInit.value);
           var due := Due(now, old(calibrateLast));
           && calls == old(calls) + PeriodicCalls(due,
                [PlatformMoveTo(calibrationTargetPose, true), PlatformUpdate], Calibrating, platformOk) + [ForceUpdate]
           && calibrateLast == (if due then now else old(calibrateLast))
           && state == (if due && !platformOk then Stop else Calibrating)
      ensures old(state) == Stop ==>
        && state == Stop
        && trajectoryFixedInterval == fixedInterval
        && loadedTrajectoryFileName ==
             (if (old(loadedTrajectoryFileName) != trajectoryFileName && loaded)
                 || (old(trajectoryFixedInterval) != fixedInterval && reloaded)
              then trajectoryFileName else old(loadedTrajectoryFileName))
        && stopInit == (if old(stopInit).None? then Some(millis) else old(stopInit))
        && var now := ElapsedU32(millis, stopInit.value);
           var due := Due(now, old(stopLast));
           && calls == old(calls) + PeriodicCalls(due, [PlatformMoveHome, PlatformUpdate], Stop, platformOk)
           && stopLast == (if due then now else old(stopLast))
      ensures old(state) != Moving ==> moveLast == old(moveLast)
      ensures old(state) != Calibrating ==> calibrateInit == old(calibrateInit) && calibrateLast == old(calibrateLast)
      ensures old(state) != Stop ==>
        && stopInit == old(stopInit) && stopLast == old(stopLast)
        && loadedTrajectoryFileName == old(loadedTrajectoryFileName)
        && trajectoryFixedInterval == old(trajectoryFixedInterval)
    {
      if state == Moving {
        Move(millis, platformOk);
      } else if state == Calibrating {
        Calibrate(millis, platformOk);
      } else if state == Stop {
        StopHandler(millis, platformOk, loaded, reloaded);
      }
    }

    /** Follow the trajectory: at most once per interval, aim the platform at the trajectory's pose for the elapsed time. */
    method Move(millis: nat, platformOk: bool)
      requires Valid() && millis < U32Modulus
      modifies this`moveLast, this`calls, this`state, this`trajectoryInitTime
      ensures Valid()
      ensures trajectoryInitTime == old(trajectoryInitTime)
      ensures var now := ElapsedU32(millis, old(trajectoryInitTime));
        && calls == old(calls) + PeriodicCalls(Due(now, old(moveLast)),
             [PlatformMoveTo(T.PoseAt(trajectory.Stored(), now), false), PlatformUpdate], old(state), platformOk)
        && moveLast == (if Due(now, old(moveLast)) then now else old(moveLast))
        && state == (if Due(now, old(moveLast)) && !platformOk then Stop else old(state))
    {
      var now := ElapsedU32(millis, trajectoryInitTime);
      if ElapsedU32(now, moveLast) >= PlatformUpdateInterval {
        moveLast := now;
        var target := trajectory.GetPose(now);
        calls := calls + [PlatformMoveTo(target, false), PlatformUpdate];
        if !platformOk {
          var _ := SetState(Stop, millis);
          return;
        }
      }
    }

    /**
     * Hold the calibration target: at most once per interval, aim the platform at it in
     * absolute coordinates; refresh the force sensors on every pass.
     */
    method Calibrate(millis: nat, platformOk: bool)
      requires millis < U32Modulus
      modifies this`calibrateInit, this`calibrateLast, this`calls, this`state, this`trajectoryInitTime
      ensures trajectoryInitTime == old(trajectoryInitTime)
      ensures calibrateInit == if old(calibrateInit).None? then Some(millis) else old(calibrateInit)
      ensures var now := ElapsedU32(millis, calibrateInit.value);
        && calls == old(calls) + PeriodicCalls(Due(now, old(calibrateLast)),
             [PlatformMoveTo(old(calibrationTargetPose), true), PlatformUpdate], old(state), platformOk) + [ForceUpdate]
        && calibrateLast == (if Due(now, old(calibrateLast)) then now else old(calibrateLast))
        && state == (if Due(now, old(calibrateLast)) && !platformOk then Next(old(state), Stop) else old(state))
    {
      if calibrateInit.None? {
        calibrateInit := Some(millis);
      }
      var now := ElapsedU32(millis, calibrateInit.value);
      if ElapsedU32(now, calibrateLast) >= PlatformUpdateInterval {
        calibrateLast := now;
        calls := calls + [PlatformMoveTo(calibrationTargetPose, true), PlatformUpdate];
        if !platformOk {
          var _ := SetState(Stop, millis);
        }
      }
      calls := calls + [ForceUpdate];
    }

    /**
     * While stopped: reload the trajectory when the configured file or fixed interval
     * changed, and at most once per interval send the platform home.
     */
    method StopHandler(millis: nat, platformOk: bool, loaded: bool, reloaded: bool)
      requires state == Stop && millis < U32Modulus
      modifies this`stopInit, this`stopLast, this`calls, this`state, this`trajectoryInitTime,
               this`loadedTrajectoryFileName, this`trajectoryFixedInterval
      ensures state == Stop && trajectoryInitTime == old(trajectoryInitTime)
      ensures trajectoryFixedInterval == fixedInterval
      ensures loadedTrajectoryFileName ==
        if (old(loadedTrajectoryFileName) != trajectoryFileName && loaded)
           || (old(trajectoryFixedInterval) != fixedInterval && reloaded)
        then trajectoryFileName else old(loadedTrajectoryFileName)
      ensures stopInit == if old(stopInit).None? then Some(millis) else old(stopInit)
      ensures var now := ElapsedU32(millis, stopInit.value);
        && calls == old(calls) + PeriodicCalls(Due(now, old(stopLast)), [PlatformMoveHome, PlatformUpdate], Stop, platformOk)
        && stopLast == (if Due(now, old(stopLast)) then now else old(stopLast))
    {
      ReloadIfChanged(loaded, reloaded);
      StopTick(millis, platformOk);
    }

    /** The first half of the stop handler: pick up a changed file name or fixed interval. */
    method ReloadIfChanged(loaded: bool, reloaded: bool)
      requires state == Stop
      modifies this`loadedTrajectoryFileName, this`trajectoryFixedInterval
      ensures state == Stop && calls == old(calls)
      ensures trajectoryFixedInterval == fixedInterval
      ensures loadedTrajectoryFileName ==
        if (old(loadedTrajectoryFileName) != trajectoryFileName && loaded)
           || (old(trajectoryFixedInterval) != fixedInterval && reloaded)
        then trajectoryFileName else old(loadedTrajectoryFileName)
    {
      if loadedTrajectoryFileName != trajectoryFileName {
        var _ := LoadTrajectoryFromFile(trajectoryFileName, loaded);
      }
      if trajectoryFixedInterval != fixedInterval {
        trajectoryFixedInterval := fixedInterval;
        if reloaded {
          loadedTrajectoryFileName := trajectoryFileName;
        }
      }
    }

    /** The second half: start the stop clock once, then send the platform home at most once per interval. */
    method StopTick(millis: nat, platformOk: bool)
      requires state == Stop && millis < U32Modulus
      modifies this`stopInit, this`stopLast, this`calls, this`state, this`trajectoryInitTime
      ensures state == Stop && trajectoryInitTime == old(trajectoryInitTime)
      ensures stopInit == if old(stopInit).None? then Some(millis) else old(stopInit)
      ensures var now := ElapsedU32(millis, stopInit.value);
        && calls == old(calls) + PeriodicCalls(Due(now, old(stopLast)), [PlatformMoveHome, PlatformUpdate], Stop, platformOk)
        && stopLast == (if Due(now, old(stopLast)) then now else old(stopLast))
    {
      if stopInit.None? {
        stopInit := Some(millis);
      }
      var now := ElapsedU32(millis, stopInit.value);
      if ElapsedU32(now, stopLast) >= PlatformUpdateInterval {
        stopLast := now;
        calls := calls + [PlatformMoveHome, PlatformUpdate];
        if !platformOk {
          var _ := SetState(Stop, millis);
        }
      }
    }
  }
}
