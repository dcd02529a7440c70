/** `GradePlayer` of Player/GradePlayer.py: the scorer of a human pilot. Points
    start at zero, every full second costs one point, and a collision costs a
    fixed penalty and stops the scorer. Unlike GradeAI it reads the polled
    state's collision count without a None check, and an exception leaves the
    loop without stopping the scorer. Printing, logging and the thread are not
    part of this model; the clock and the polls are those of module Scoring. */
module PlayerGrading {
  import opened Wrappers
  import opened Python
  import opened Records
  import opened Scoring

  class GradePlayer {
    const pointsDeductedForCollision: real
    /** The run time in seconds. */
    const duration: real
    var points: real
    var simulationStartTime: real
    var lastPointTime: real
    /** `_stop_event` */
    var stopEvent: bool

    /** The constructor: zero points, a penalty of 1000 unless one is given, and
        both time markers clock readings. */
    constructor(duration: real, startReading: real, lastReading: real, pointsDeductedForCollision: real := 1000.0)
      ensures points == 0.0
      ensures this.duration == duration && this.pointsDeductedForCollision == pointsDeductedForCollision
      ensures simulationStartTime == startReading && lastPointTime == lastReading
      ensures !stopEvent
    {
      this.pointsDeductedForCollision := pointsDeductedForCollision;
      this.duration := duration;
      points := 0.0;
      simulationStartTime := startReading;
      lastPointTime := lastReading;
      stopEvent := false;
    }

    /** The loop rules of this scorer: one point per second, a None state raises,
        and there is no image handling. */
    function PlayerRules(): Rules {
      Rules(duration, 1.0, pointsDeductedForCollision, true, false)
    }

    /** `add_points(numOfPointsToAdd)` */
    method AddPoints(numOfPointsToAdd: real)
      modifies this
      ensures points == old(points) + numOfPointsToAdd
      ensures lastPointTime == old(lastPointTime) && stopEvent == old(stopEvent)
      ensures simulationStartTime == old(simulationStartTime)
    {
      points := points + numOfPointsToAdd;
    }

    /** `stop()` */
    method Stop()
      modifies this
      ensures stopEvent
      ensures points == old(points) && lastPointTime == old(lastPointTime)
      ensures simulationStartTime == old(simulationStartTime)
    {
      stopEvent := true;
    }

    /** `get_points()` */
    method GetPoints() returns (r: real)
      ensures r == points
    {
      r := points;
    }

    /** `is_stopped()` */
    method IsStopped() returns (r: bool)
      ensures r == stopEvent
    {
      r := stopEvent;
    }

    /** `_handlePerSecondDeduction(current_time)`: once a full second has passed
        since the last deduction, one point is taken and the marker moves to now. */
    method HandlePerSecondDeduction(currentTime: real)
      modifies this
      ensures currentTime - old(lastPointTime) >= 1.0 ==>
        points == old(points) - 1.0 && lastPointTime == currentTime
      ensures currentTime - old(lastPointTime) < 1.0 ==>
        points == old(points) && lastPointTime == old(lastPointTime)
      ensures stopEvent == old(stopEvent) && simulationStartTime == old(simulationStartTime)
    {
      if currentTime - lastPointTime >= 1.0 {
        points := points - 1.0;
        lastPointTime := currentTime;
      }
    }

    /** `_handleCollisions()` on what `getDroneState()` gave: a non-zero count
        costs the penalty once and stops the scorer; reading the count of None
        raises AttributeError; an exception from the poll escapes. */
    method HandleCollisions(poll: Poll) returns (r: Result<(), Exception>)
      modifies this
      ensures poll.Err? ==> r == Err(poll.error)
      ensures poll == Ok(None) ==> r == Err(AttributeError)
      ensures poll.Ok? && poll.value.Some? ==> r == Ok(())
      ensures if r.Ok? && poll.value.value.collisionCount != 0
        then points == old(points) - pointsDeductedForCollision && stopEvent
        else points == old(points) && stopEvent == old(stopEvent)
      ensures lastPointTime == old(lastPointTime) && simulationStartTime == old(simulationStartTime)
    {
      if poll.Err? {
        return Err(poll.error);
      }
      if poll.value.None? {
        return Err(AttributeError);
      }
      var state := poll.value.value;
      if state.collisionCount != 0 {
        points := points - pointsDeductedForCollision;
        Stop();
      }
      r := Ok(());
    }

    /** `run()`: the scoring loop of module Scoring with this scorer's rules. A
        loop that ends normally stops the scorer; an exception is caught and
        printed, and the scorer then stays as the loop left it. */
    method Run(readings: seq<real>, polls: seq<Poll>) returns (printed: Option<Exception>)
      requires Enough(readings, polls, [], PlayerRules())
      modifies this
      ensures var r := Loop(Tally(old(points), readings[0], readings[1], old(stopEvent), 0, 0, None),
                            readings, polls, [], 0, PlayerRules());
        points == r.points && lastPointTime == r.last && printed == r.fault
        && stopEvent == (r.stop || r.fault.None?)
      ensures simulationStartTime == readings[0]
    {
      var rules := PlayerRules();
      simulationStartTime := readings[0];
      lastPointTime := simulationStartTime;
      var currentTime := readings[1];
      printed := None;
      ghost var t := Tally(points, lastPointTime, currentTime, stopEvent, 0, 0, None);
      ghost var final := Loop(t, readings, polls, [], 0, rules);
      var i := 0;
      while !stopEvent && currentTime - simulationStartTime < duration
        invariant i + 1 < |readings| && simulationStartTime == readings[0]
        invariant t == Tally(points, lastPointTime, currentTime, stopEvent, t.deductions, t.penalties, None)
        invariant currentTime == readings[i + 1]
        invariant Loop(t, readings, polls, [], i, rules) == final
        invariant printed.None?
        decreases |readings| - i
      {
        currentTime := readings[i + 2];
        HandlePerSecondDeduction(currentTime);
        var outcome := HandleCollisions(polls[i]);
        t := Step(t, currentTime, polls[i], Ok(()), rules);
        i := i + 1;
        if outcome.Err? {
          printed := Some(outcome.error);
          return;
        }
      }
      Stop();
    }
  }
}
