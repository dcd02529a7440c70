/** `GradeAI` of AI/GradeAI.py: the scorer of an autonomous run. Its rules are
    copied from the simulation parameters; each pass of its loop takes the
    per-second cost, handles a collision, then calls the detection workers'
    `run()` inline when they are not running and reads their results, which are
    only logged. Logging, the thread and the detection workers themselves are
    not part of this model: the clock, the drone-state polls and what each
    pass's image handling gave are the `readings`, `polls` and `images` of
    module Scoring. */
module AiGrading {
  import opened Wrappers
  import opened Python
  import opened Records
  import opened Results
  import opened Scoring

  /** `abs` on a time difference. */
  function AbsReal(x: real): (r: real)
    ensures r >= 0.0 && (r == x || r == -x)
  {
    if x < 0.0 then -x else x
  }

  class GradeAI<YoloResult, ArucoResult> {
    var currentPoints: real
    const simulationTime: real
    const pointsForTargetDetection: real
    const pointsDeductedPerCollision: real
    const costPointsPerSec: real
    /** The buffers the YOLO and ArUco workers publish into. */
    const yoloResults: ThreadSafeResults<YoloResult>
    const arucoResults: ThreadSafeResults<ArucoResult>
    var simulationStartTime: real
    var lastPointTime: real
    /** `_stop_event` */
    var stopEvent: bool

    /** The constructor: the rules come from `simParams`, the two result buffers
        are new and empty, and both time markers are clock readings. */
    constructor(simParams: SimulationParams, startReading: real, lastReading: real)
      ensures currentPoints == simParams.initialPoints
      ensures simulationTime == simParams.simulationTime as real
      ensures pointsForTargetDetection == simParams.addPointsForRecognition
      ensures pointsDeductedPerCollision == simParams.pointsDeductedForCollision
      ensures costPointsPerSec == simParams.decreasePointsPerSec
      ensures fresh(yoloResults) && fresh(arucoResults)
      ensures yoloResults.results == [] && arucoResults.results == []
      ensures simulationStartTime == startReading && lastPointTime == lastReading
      ensures !stopEvent
    {
      currentPoints := simParams.initialPoints;
      simulationTime := simParams.simulationTime as real;
      pointsForTargetDetection := simParams.addPointsForRecognition;
      pointsDeductedPerCollision := simParams.pointsDeductedForCollision;
      costPointsPerSec := simParams.decreasePointsPerSec;
      yoloResults := new ThreadSafeResults();
      arucoResults := new ThreadSafeResults();
      simulationStartTime := startReading;
      lastPointTime := lastReading;
      stopEvent := false;
    }

    /** The loop rules of this scorer: a None state is skipped, and every pass
        ends with the image handling. */
    function AiRules(): Rules {
      Rules(simulationTime, costPointsPerSec, pointsDeductedPerCollision, false, true)
    }

    /** `stop()`: sets the flag; calling it again changes nothing. */
    method Stop()
      modifies this
      ensures stopEvent
      ensures currentPoints == old(currentPoints) && lastPointTime == old(lastPointTime)
      ensures simulationStartTime == old(simulationStartTime)
    {
      stopEvent := true;
    }

    /** `stopped()` */
    method Stopped() returns (r: bool)
      ensures r == stopEvent
    {
      r := stopEvent;
    }

    /** `_handleEndSimulationTime(startTime, currTime)`: stops iff strictly more
        than the run time lies between the two readings, in either order. */
    method HandleEndSimulationTime(startTime: real, currTime: real)
      modifies this
      ensures stopEvent == (old(stopEvent) || AbsReal(currTime - startTime) > simulationTime)
      ensures currentPoints == old(currentPoints) && lastPointTime == old(lastPointTime)
      ensures simulationStartTime == old(simulationStartTime)
    {
      if AbsReal(currTime - startTime) > simulationTime {
        Stop();
      }
    }

    /** `_handleDecreaseGradeEachSec(current_time)`: once a full second has passed
        since the last deduction, the cost is taken once and the marker moves to now. */
    method HandleDecreaseGradeEachSec(currentTime: real)
      modifies this
      ensures currentTime - old(lastPointTime) >= 1.0 ==>
        currentPoints == old(currentPoints) - costPointsPerSec && lastPointTime == currentTime
      ensures currentTime - old(lastPointTime) < 1.0 ==>
        currentPoints == old(currentPoints) && lastPointTime == old(lastPointTime)
      ensures stopEvent == old(stopEvent) && simulationStartTime == old(simulationStartTime)
    {
      if currentTime - lastPointTime >= 1.0 {
        currentPoints := currentPoints - costPointsPerSec;
        lastPointTime := currentTime;
      }
    }

    /** `_handleCollision()` on what `getDroneState()` gave: a state with a non-zero
        collision count costs one penalty, whatever the count, and stops the
        scorer; a zero count or None changes nothing; an exception escapes. */
    method HandleCollision(poll: Poll) returns (r: Result<(), Exception>)
      modifies this
      ensures poll.Err? ==> r == Err(poll.error)
      ensures poll.Ok? ==> r == Ok(())
      ensures if poll.Ok? && poll.value.Some? && poll.value.value.collisionCount != 0
        then currentPoints == old(currentPoints) - pointsDeductedPerCollision && stopEvent
        else currentPoints == old(currentPoints) && stopEvent == old(stopEvent)
      ensures lastPointTime == old(lastPointTime) && simulationStartTime == old(simulationStartTime)
    {
      if poll.Err? {
        return Err(poll.error);
      }
      var state := poll.value;
      if state.Some? && state.value.collisionCount != 0 {
        currentPoints := currentPoints - pointsDeductedPerCollision;
        Stop();
      }
      r := Ok(());
    }

    /** `_handleImageFromUE()`: the workers' `run()`, called inline, either raised,
        which escapes, or returned; then the latest detections are read, and they
        are only logged. No points change and the buffers keep their contents. */
    method HandleImageFromUE(workers: Outcome) returns (r: Result<(seq<YoloResult>, seq<ArucoResult>), Exception>)
      ensures workers.Err? ==> r == Err(workers.error)
      ensures workers.Ok? ==> r == Ok((yoloResults.results, arucoResults.results))
    {
      if workers.Err? {
        return Err(workers.error);
      }
      var yolo := yoloResults.GetLatestResults();
      var aruco := arucoResults.GetLatestResults();
      r := Ok((yolo, aruco));
    }

    /** `run()`: the scoring loop of module Scoring with this scorer's rules; an
        exception escaping the collision check or the image handling is caught
        and logged, and the scorer always ends stopped. */
    method Run(readings: seq<real>, polls: seq<Poll>, images: seq<Outcome>) returns (logged: Option<Exception>)
      requires Enough(readings, polls, images, AiRules())
      modifies this
      ensures var r := Loop(Tally(old(currentPoints), readings[0], readings[1], old(stopEvent), 0, 0, None),
                            readings, polls, images, 0, AiRules());
        currentPoints == r.points && lastPointTime == r.last && logged == r.fault
      ensures simulationStartTime == readings[0] && stopEvent
    {
      var rules := AiRules();
      simulationStartTime := readings[0];
      lastPointTime := simulationStartTime;
      var currentTime := readings[1];
      logged := None;
      ghost var t := Tally(currentPoints, lastPointTime, currentTime, stopEvent, 0, 0, None);
      ghost var final := Loop(t, readings, polls, images, 0, rules);
      var i := 0;
      while !stopEvent && currentTime - simulationStartTime < simulationTime
        invariant i + 1 < |readings| && simulationStartTime == readings[0]
        invariant t == Tally(currentPoints, lastPointTime, currentTime, stopEvent, t.deductions, t.penalties, None)
        invariant currentTime == readings[i + 1]
        invariant Loop(t, readings, polls, images, i, rules) == final
        invariant logged.None?
        decreases |readings| - i
      {
        currentTime := readings[i + 2];
        HandleDecreaseGradeEachSec(currentTime);
        var outcome := HandleCollision(polls[i]);
        t := Step(t, currentTime, polls[i], images[i], rules);
        i := i + 1;
        if outcome.Err? {
          logged := Some(outcome.error);
          break;
        }
        var seen := HandleImageFromUE(images[i - 1]);
        if seen.Err? {
          logged := Some(seen.error);
          break;
        }
      }
      Stop();
    }
  }
}
