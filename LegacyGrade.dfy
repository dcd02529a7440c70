/** `Grade` of Grade.py, the earlier scorer whose `run` body is all comments:
    a points value, a collision count and cost read from the grade
    configuration, and a stop flag. Reading the configuration file is not
    part of this model; its four values are the constructor's arguments. */
module LegacyGrade {

  class Grade {
    var currentPoints: real
    const simulationTime: real
    /** Set from the configuration and never changed by any method. */
    var numOfCollisions: real
    const costPerCollision: real
    /** `_stop_event` */
    var stopEvent: bool

    /** `gradeConfig["pointsAtStartOfGame"]`, `["simulationTime"]`,
        `["CollisionCount"]` and `["collisionCost"]`, in that order. */
    constructor(pointsAtStartOfGame: real, simulationTime: real, collisionCount: real, collisionCost: real)
      ensures currentPoints == pointsAtStartOfGame && this.simulationTime == simulationTime
      ensures numOfCollisions == collisionCount && costPerCollision == collisionCost
      ensures !stopEvent
    {
      currentPoints := pointsAtStartOfGame;
      this.simulationTime := simulationTime;
      numOfCollisions := collisionCount;
      costPerCollision := collisionCost;
      stopEvent := false;
    }

    /** `stop()` */
    method Stop()
      modifies this
      ensures stopEvent
      ensures currentPoints == old(currentPoints) && numOfCollisions == old(numOfCollisions)
    {
      stopEvent := true;
    }

    /** `stopped()` */
    method Stopped() returns (r: bool)
      ensures r == stopEvent
    {
      r := stopEvent;
    }

    /** `decrease_grade_each_sec()`: exactly one point, with no clock check. */
    method DecreaseGradeEachSec()
      modifies this
      ensures currentPoints == old(currentPoints) - 1.0
      ensures numOfCollisions == old(numOfCollisions) && stopEvent == old(stopEvent)
    {
      currentPoints := currentPoints - 1.0;
    }

    /** `pointsDecreaseCollision()`: charges every collision counted so far. The
        count is not reset, so a second call charges the same collisions again. */
    method PointsDecreaseCollision()
      modifies this
      ensures currentPoints == old(currentPoints) - old(numOfCollisions) * costPerCollision
      ensures numOfCollisions == old(numOfCollisions) && stopEvent == old(stopEvent)
    {
      var pointsToDecrease := numOfCollisions * costPerCollision;
      currentPoints := currentPoints - pointsToDecrease;
    }
  }

  /** Two calls of `pointsDecreaseCollision` charge the collisions twice. */
  method ChargedTwice(grade: Grade) returns (charged: real)
    modifies grade
    ensures charged == 2.0 * grade.numOfCollisions * grade.costPerCollision
    ensures grade.currentPoints == old(grade.currentPoints) - charged
  {
    var before := grade.currentPoints;
    grade.PointsDecreaseCollision();
    grade.PointsDecreaseCollision();
    charged := before - grade.currentPoints;
  }
}
