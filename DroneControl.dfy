/** The `PublicDroneControl` facade of Core/PublicDroneControl.py as a class.
    The UDP sender becomes the log `sent` of every datagram sent, in order; the
    listener thread becomes the method `Listen`, one call per received datagram;
    a blocking `Queue.get()` becomes a precondition that the reply has already
    been queued. `json.loads` is the function `loads` the facade is built with. */
module DroneControl {
  import opened Wrappers
  import opened Python
  import opened Records
  import opened Messages

  class PublicDroneControl {
    /** `message_queues`: one FIFO queue of payloads per reply kind. */
    var messageQueues: Queues
    /** The actor positions of the last successful `spawnXActors`. */
    var spawnedActors: seq<Coordinate>
    /** Every datagram sent to the engine, oldest first. */
    var sent: seq<string>
    /** `json.loads`: None where the text is not JSON. */
    const loads: string -> Option<Json>

    predicate Valid()
      reads this
    {
      Complete(messageQueues)
    }

    /** All eight queues start empty, nothing is spawned and nothing is sent. */
    constructor(loads: string -> Option<Json>)
      ensures Valid()
      ensures forall c: Channel :: messageQueues[c] == []
      ensures spawnedActors == [] && sent == [] && this.loads == loads
    {
      EmptyQueuesComplete();
      messageQueues := EmptyQueues();
      spawnedActors := [];
      sent := [];
      this.loads := loads;
    }

    /** One pass of `_listen`: the datagram is routed to at most one queue. */
    method Listen(message: string)
      requires Valid()
      modifies this
      ensures Valid()
      ensures messageQueues == Routed(old(messageQueues), message)
      ensures forall c: Channel :: messageQueues[c] == old(messageQueues[c]) + Delivered(message, c)
      ensures spawnedActors == old(spawnedActors) && sent == old(sent)
    {
      forall c: Channel
        ensures Routed(messageQueues, message)[c] == messageQueues[c] + Delivered(message, c)
      {
        RoutedIntoOneQueue(messageQueues, message, c);
      }
      match Classify(message)
      case None =>
      case Some(c) =>
        messageQueues := messageQueues[c := messageQueues[c] + [Payload(c, message)]];
    }

    /** `_send(msg)` */
    method Send(msg: string)
      modifies this
      ensures sent == old(sent) + [msg]
      ensures messageQueues == old(messageQueues) && spawnedActors == old(spawnedActors)
    {
      sent := sent + [msg];
    }

    /** `message_queues[c].get()`: the oldest queued reply of kind `c`. */
    method Take(c: Channel) returns (message: string)
      requires Valid() && messageQueues[c] != []
      modifies this
      ensures Valid()
      ensures message == old(messageQueues[c][0])
      ensures messageQueues == old(messageQueues)[c := old(messageQueues[c][1..])]
      ensures spawnedActors == old(spawnedActors) && sent == old(sent)
    {
      message := messageQueues[c][0];
      messageQueues := messageQueues[c := messageQueues[c][1..]];
    }

    /** The ten primitive controls, `moveDroneUp` to `turnCameraUp`. */
    method SendPrimitive(p: Primitive, speedMultiplier: Decimal)
      modifies this
      ensures sent == old(sent) + [PrimitiveCommand(p, speedMultiplier)]
      ensures messageQueues == old(messageQueues) && spawnedActors == old(spawnedActors)
    {
      Send(PrimitiveCommand(p, speedMultiplier));
    }

    /** `hoverDrone()` */
    method HoverDrone()
      modifies this
      ensures sent == old(sent) + [HoverCommand]
      ensures messageQueues == old(messageQueues) && spawnedActors == old(spawnedActors)
    {
      Send(HoverCommand);
    }

    /** `rotateDroneXDegreesAtSpeed(degrees, speed=90)` */
    method RotateDroneXDegreesAtSpeed(degrees: Decimal, speed: Decimal := Decimal(90, 0))
      modifies this
      ensures sent == old(sent) + [RotateXDegreesCommand(degrees, speed)]
      ensures messageQueues == old(messageQueues) && spawnedActors == old(spawnedActors)
    {
      Send(RotateXDegreesCommand(degrees, speed));
    }

    /** `rotateDroneTowardsLocation(x, y, z, speed=90)`: returns normally iff the
        reply is `Done`. */
    method RotateDroneTowardsLocation(x: Decimal, y: Decimal, z: Decimal, speed: Decimal := Decimal(90, 0))
      returns (r: Result<(), Exception>)
      requires Valid() && messageQueues[Channel.TurnTowards] != []
      modifies this
      ensures Valid()
      ensures sent == old(sent) + [TurnTowardsCommand(x, y, z, speed)]
      ensures messageQueues == old(messageQueues)[Channel.TurnTowards := old(messageQueues[Channel.TurnTowards][1..])]
      ensures r == Acknowledge(old(messageQueues[Channel.TurnTowards][0]), TurnTowardsError)
      ensures spawnedActors == old(spawnedActors)
    {
      Send(TurnTowardsCommand(x, y, z, speed));
      var message := Take(Channel.TurnTowards);
      r := Acknowledge(message, TurnTowardsError);
    }

    /** `moveDroneToLocation(x, y, z, speed=2, turnWithMove=True)`: returns
        normally iff the reply is `Done`. */
    method MoveDroneToLocation(x: Decimal, y: Decimal, z: Decimal, speed: Decimal := Decimal(2, 0), turnWithMove: bool := true)
      returns (r: Result<(), Exception>)
      requires Valid() && messageQueues[Channel.Goto] != []
      modifies this
      ensures Valid()
      ensures sent == old(sent) + [GotoCommand(x, y, z, speed, turnWithMove)]
      ensures messageQueues == old(messageQueues)[Channel.Goto := old(messageQueues[Channel.Goto][1..])]
      ensures r == Acknowledge(old(messageQueues[Channel.Goto][0]), GotoError)
      ensures spawnedActors == old(spawnedActors)
    {
      Send(GotoCommand(x, y, z, speed, turnWithMove));
      var message := Take(Channel.Goto);
      r := Acknowledge(message, GotoError);
    }

    /** `turnCameraXDegreesAtSpeed(degrees, speedMultiplier=60)`: returns normally
        iff the reply is `Done`. */
    method TurnCameraXDegreesAtSpeed(degrees: Decimal, speedMultiplier: Decimal := Decimal(60, 0))
      returns (r: Result<(), Exception>)
      requires Valid() && messageQueues[Channel.TurnCameraXDeg] != []
      modifies this
      ensures Valid()
      ensures sent == old(sent) + [TurnCameraCommand(degrees, speedMultiplier)]
      ensures messageQueues == old(messageQueues)[Channel.TurnCameraXDeg := old(messageQueues[Channel.TurnCameraXDeg][1..])]
      ensures r == Acknowledge(old(messageQueues[Channel.TurnCameraXDeg][0]), TurnCameraError)
      ensures spawnedActors == old(spawnedActors)
    {
      Send(TurnCameraCommand(degrees, speedMultiplier));
      var message := Take(Channel.TurnCameraXDeg);
      r := Acknowledge(message, TurnCameraError);
    }

    /** `getDroneState()`: the oldest state reply, decoded. */
    method GetDroneState() returns (r: Result<DroneState, Exception>)
      requires Valid() && messageQueues[Channel.GetDroneState] != []
      modifies this
      ensures Valid()
      ensures sent == old(sent) + [DroneStateRequest]
      ensures messageQueues == old(messageQueues)[Channel.GetDroneState := old(messageQueues[Channel.GetDroneState][1..])]
      ensures r == DecodeDroneState(loads, old(messageQueues[Channel.GetDroneState][0]))
      ensures spawnedActors == old(spawnedActors)
    {
      Send(DroneStateRequest);
      var message := Take(Channel.GetDroneState);
      r := DecodeDroneState(loads, message);
    }

    /** `sendDroneGrade(grade)` */
    method SendDroneGrade(grade: Decimal)
      modifies this
      ensures sent == old(sent) + [DroneGradeCommand(grade)]
      ensures messageQueues == old(messageQueues) && spawnedActors == old(spawnedActors)
    {
      Send(DroneGradeCommand(grade));
    }

    /** `getDistanceToCameraDirection()`: the reply in centimetres, returned in metres. */
    method GetDistanceToCameraDirection() returns (r: Result<real, Exception>)
      requires Valid() && messageQueues[Channel.GetDistanceToCameraDirection] != []
      modifies this
      ensures Valid()
      ensures sent == old(sent) + [DistanceRequest]
      ensures messageQueues
           == old(messageQueues)[Channel.GetDistanceToCameraDirection := old(messageQueues[Channel.GetDistanceToCameraDirection][1..])]
      ensures r == DistanceFromReply(old(messageQueues[Channel.GetDistanceToCameraDirection][0]))
      ensures spawnedActors == old(spawnedActors)
    {
      Send(DistanceRequest);
      var message := Take(Channel.GetDistanceToCameraDirection);
      r := DistanceFromReply(message);
    }

    /** `getCameraTarget()`: the object under the camera, or None. */
    method GetCameraTarget() returns (r: Result<Option<Target>, Exception>)
      requires Valid() && messageQueues[Channel.GetCameraTarget] != []
      modifies this
      ensures Valid()
      ensures sent == old(sent) + [CameraTargetRequest]
      ensures messageQueues == old(messageQueues)[Channel.GetCameraTarget := old(messageQueues[Channel.GetCameraTarget][1..])]
      ensures r == ParseHitResult(old(messageQueues[Channel.GetCameraTarget][0]))
      ensures spawnedActors == old(spawnedActors)
    {
      Send(CameraTargetRequest);
      var message := Take(Channel.GetCameraTarget);
      r := ParseHitResult(message);
    }

    /** `getTargetOfPoint(coordinateX, coordinateY)`: the object behind a screen point, or None. */
    method GetTargetOfPoint(coordinateX: Decimal, coordinateY: Decimal) returns (r: Result<Option<Target>, Exception>)
      requires Valid() && messageQueues[Channel.GetTargetOfPoint] != []
      modifies this
      ensures Valid()
      ensures sent == old(sent) + [TargetOfPointRequest(coordinateX, coordinateY)]
      ensures messageQueues == old(messageQueues)[Channel.GetTargetOfPoint := old(messageQueues[Channel.GetTargetOfPoint][1..])]
      ensures r == ParseHitResult(old(messageQueues[Channel.GetTargetOfPoint][0]))
      ensures spawnedActors == old(spawnedActors)
    {
      Send(TargetOfPointRequest(coordinateX, coordinateY));
      var message := Take(Channel.GetTargetOfPoint);
      r := ParseHitResult(message);
    }

    /** `requestDaytimeChange(addDegrees)` */
    method RequestDaytimeChange(addDegrees: Decimal)
      modifies this
      ensures sent == old(sent) + [DaytimeChangeCommand(addDegrees)]
      ensures messageQueues == old(messageQueues) && spawnedActors == old(spawnedActors)
    {
      Send(DaytimeChangeCommand(addDegrees));
    }

    /** `spawnXActors(numOfActorsToSpawn)`: asks for at most 150 actors and, when
        the whole reply decodes, records and returns its positions in index order.
        A failed decoding raises and leaves `spawnedActors` as it was. */
    method SpawnXActors(numOfActorsToSpawn: int) returns (r: Result<seq<Coordinate>, Exception>)
      requires Valid() && messageQueues[Channel.SpawnXActors] != []
      modifies this
      ensures Valid()
      ensures sent == old(sent) + [SpawnCommand(SpawnCount(numOfActorsToSpawn))]
      ensures messageQueues == old(messageQueues)[Channel.SpawnXActors := old(messageQueues[Channel.SpawnXActors][1..])]
      ensures r == SpawnReply(loads, old(messageQueues[Channel.SpawnXActors][0]))
      ensures spawnedActors == if r.Ok? then r.value else old(spawnedActors)
    {
      var count := numOfActorsToSpawn;
      if count > MaxActors {
        count := MaxActors;
      }
      Send(SpawnCommand(count));
      var message := Take(Channel.SpawnXActors);
      var decoded := loads(message);
      if decoded.None? {
        return Err(JsonDecodeError);
      }
      var json := decoded.value;
      var size := Len(json);
      if size.Err? {
        return Err(size.error);
      }
      r := ReadActors(json, size.value / 3);
      if r.Ok? {
        spawnedActors := r.value;
      }
    }

    /** The shared body of the two verify-and-destroy methods: destroy the first
        spawned actor at the target's position, if there is one. */
    method DestroyIfSpawned(target: Option<Target>) returns (destroyed: bool)
      modifies this
      ensures destroyed <==> DestroyIndex(target, spawnedActors).Some?
      ensures sent == old(sent) + if destroyed then [DestroyCommand(DestroyIndex(target, spawnedActors).value)] else []
      ensures messageQueues == old(messageQueues) && spawnedActors == old(spawnedActors)
    {
      if target.None? {
        return false;
      }
      var index := FirstIndex(spawnedActors, target.value.position);
      if index.Some? {
        Send(DestroyCommand(index.value));
        return true;
      }
      return false;
    }

    /** `verifyAndDestroyActorFromCamera()`: True iff the object under the camera
        stands where a spawned actor was, in which case that actor is destroyed;
        `spawnedActors` itself is never changed. */
    method VerifyAndDestroyActorFromCamera() returns (r: Result<bool, Exception>)
      requires Valid() && messageQueues[Channel.GetCameraTarget] != []
      modifies this
      ensures Valid()
      ensures messageQueues == old(messageQueues)[Channel.GetCameraTarget := old(messageQueues[Channel.GetCameraTarget][1..])]
      ensures spawnedActors == old(spawnedActors)
      ensures var parsed := ParseHitResult(old(messageQueues[Channel.GetCameraTarget][0]));
        match parsed
        case Err(e) => r == Err(e) && sent == old(sent) + [CameraTargetRequest]
        case Ok(target) =>
          var index := DestroyIndex(target, spawnedActors);
          r == Ok(index.Some?)
          && sent == old(sent) + [CameraTargetRequest] + if index.Some? then [DestroyCommand(index.value)] else []
    {
      var target := GetCameraTarget();
      if target.Err? {
        return Err(target.error);
      }
      var destroyed := DestroyIfSpawned(target.value);
      r := Ok(destroyed);
    }

    /** `verifyAndDestroyActorFromPoint(normalizedX, normalizedY)`: as from the
        camera, for the object behind a screen point. */
    method VerifyAndDestroyActorFromPoint(normalizedX: Decimal, normalizedY: Decimal) returns (r: Result<bool, Exception>)
      requires Valid() && messageQueues[Channel.GetTargetOfPoint] != []
      modifies this
      ensures Valid()
      ensures messageQueues == old(messageQueues)[Channel.GetTargetOfPoint := old(messageQueues[Channel.GetTargetOfPoint][1..])]
      ensures spawnedActors == old(spawnedActors)
      ensures var parsed := ParseHitResult(old(messageQueues[Channel.GetTargetOfPoint][0]));
        match parsed
        case Err(e) => r == Err(e) && sent == old(sent) + [TargetOfPointRequest(normalizedX, normalizedY)]
        case Ok(target) =>
          var index := DestroyIndex(target, spawnedActors);
          r == Ok(index.Some?)
          && sent == old(sent) + [TargetOfPointRequest(normalizedX, normalizedY)]
             + if index.Some? then [DestroyCommand(index.value)] else []
    {
      var target := GetTargetOfPoint(normalizedX, normalizedY);
      if target.Err? {
        return Err(target.error);
      }
      var destroyed := DestroyIfSpawned(target.value);
      r := Ok(destroyed);
    }
  }

  /** The loop of `spawnXActors` over the entries `0 .. n - 1` of the reply: the
      first entry that fails to decode ends it with that entry's exception. */
  method ReadActors(json: Json, n: nat) returns (r: Result<seq<Coordinate>, Exception>)
    ensures r == Actors(json, n)
  {
    var coordinates: seq<Coordinate> := [];
    var i := 0;
    while i < n
      invariant 0 <= i <= n
      invariant Actors(json, i) == Ok(coordinates)
    {
      var entry := ActorEntry(json, i);
      if entry.Err? {
        ActorsFailureSticks(json, i + 1, n);
        return Err(entry.error);
      }
      coordinates := coordinates + [entry.value];
      i := i + 1;
    }
    r := Ok(coordinates);
  }
}
