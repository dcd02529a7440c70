/** The plain records the drone-control facade and the scorers pass around:
    `Coordinate`, `Target` (Core/Target.py), `DroneState` and
    `SimulationParams` (Core/SimulationParams.py). */
module Records {

  /** A point in Unreal Engine world units. Equality is structural, which is
      what `position in spawnedActors` and `.index(position)` compare by. */
  datatype Coordinate = Coordinate(x: real, y: real, z: real)

  /** What the engine reports about the object under the camera or a screen point. */
  datatype Target = Target(displayName: string, className: string, position: Coordinate)

  /** The drone's position and the number of collisions so far. */
  datatype DroneState = DroneState(position: Coordinate, collisionCount: int)

  /** The simulation parameters the AI scorer copies its rules from. */
  datatype SimulationParams = SimulationParams(
    numOfPeople: int,
    sunAngle: real,
    addPointsForRecognition: real,
    decreasePointsPerSec: real,
    simulationTime: int,
    pointsDeductedForCollision: real,
    initialPoints: real)
}
