# Drone-control facade and scorers, modelled in Dafny

This project models the core of a Python client for an Unreal Engine drone simulator:

- **The drone-control facade** (`PublicDroneControl`):
  - It sends JSON commands to the engine.
  - It routes the engine's tagged text replies into one FIFO queue per reply kind.
  - It parses hit results and drone states.
  - It spawns actors and keeps their positions.
  - It destroys the actor found under the camera or behind a screen point.
- **The three scorers** that score a flight:
  - `GradeAI` for an autonomous run;
  - `GradePlayer` for a human pilot;
  - the older `Grade`.
- **The small helpers:**
  - the `stupidLogic` scanning-path generator;
  - the YOLO detection record;
  - the single-slot result buffer.

Modules, one per source file plus shared ones:

| module | models |
|---|---|
| `Wrappers` | `Option` and `Result`, the error path of every operation that raises |
| `Python` | the built-ins the code relies on: `p in s`, `s.split(sep)`, `s.split()`, `s.strip()`, `float(text)`, `str(number)`, JSON values, exceptions |
| `Records` | `Coordinate`, `Target`, `DroneState`, `SimulationParams` |
| `Messages` | everything the facade computes from text: prefix extraction, routing, the hit-result parser, the drone-state and spawn-reply decoders, `_validate_target_format`, the acknowledgement check, the outbound command texts |
| `DroneControl` | the facade as a class with the fields `messageQueues`, `spawnedActors` and `sent` |
| `Scoring` | the loop shared by `GradeAI.run` and `GradePlayer.run`, as functions over a tally, with its accounting lemmas |
| `AiGrading`, `PlayerGrading`, `LegacyGrade` | the three scorer classes, with their fields updated in place |
| `Scanning` | `stupidLogic`: nested loops proved against a path function, with lemmas on its length and bounds |
| `YoloDetection`, `Results` | `YoloDetectionObject` and `ThreadSafeResults` |

## How the model is set up

**Sending.** Every datagram sent is appended to the field `sent`.

**Receiving.** Each datagram the listener thread receives is one call of `Listen`.
- `Listen` routes the datagram into `messageQueues`, a map from the eight reply kinds to sequences.
- A blocking `Queue.get()` becomes a precondition: the reply must already be queued.

**Numbers the code writes with `str()`.** These are `Decimal(units, scale)` values.
- The text is the digits of `units` with `scale` digits after the point.
- `Render` writes that text.
- `ParseFloat`, the model of `float()`, reads it back: `Python.RenderRoundTrip`.

**JSON.** `json.loads` is a function `loads` that the facade is given; it returns None where Python raises `JSONDecodeError`.

**The clock.** The scorers' clock is a sequence `readings` of `time.time()` values in seconds:
- `readings[0]` is the start;
- `readings[1]` is the first current time;
- `readings[i + 2]` is the time read in pass `i`.

**Drone-state polls.** What `getDroneState()` gave in pass `i` is `polls[i]`: a state, None, or the exception it raised.

**Image handling.** `GradeAI`'s `_handleImageFromUE()` calls the detection workers' `run()` inline and then reads their results. What that gave in pass `i` is `images[i]`: a normal return, or the exception raised. An exception ends the loop, like one from the poll.

**How long the loops run.** The scorer loops require `Scoring.Enough`:
- the last reading is at least the run time after the first;
- there is a poll for every pass, and for `GradeAI` an image outcome as well.

So the loops end by the clock, as a real run does.

## Model

| member | source | states |
|---|---|---|
| Messages.ExtractMessageFromPrefix | Core/PublicDroneControl.py:11-16 | the result is the text after the first occurrence of the prefix; it is None exactly when the prefix does not occur; an empty prefix raises ValueError, as `str.split` does |
| Messages.ExtractAfterPrefix | Core/PublicDroneControl.py:11-16 | a message that starts with the prefix yields exactly what follows it |
| Messages.SplitsAtFirstUnique | Core/PublicDroneControl.py:13-15 | at most one suffix cuts a message at the first occurrence of the prefix |
| Messages.Classify | Core/PublicDroneControl.py:88-103 | it picks a kind whose tag occurs in the datagram, and no kind earlier in the fixed order has its tag in the datagram; it returns None exactly when no tag occurs |
| Messages.RoutedIntoOneQueue | Core/PublicDroneControl.py:84-103 | routing appends the payload to the one queue of the datagram's kind, and every other queue is unchanged |
| Messages.UntaggedDropped | Core/PublicDroneControl.py:88-103 | a datagram holding no tag changes no queue |
| Messages.TaggedReplyRouting | Core/PublicDroneControl.py:88-103 | a reply `tag + payload` whose payload holds no tag is classified as that tag's kind, and exactly the payload is queued there |
| Messages.TagsNotSuffixes | Core/PublicDroneControl.py:88-103 | no reply tag is a proper suffix of another, so a tag at the head of a reply cannot be mistaken for another kind |
| Messages.RouteAllAppends | Core/PublicDroneControl.py:67-103 | each queue is FIFO: after a stream of datagrams it holds its old contents followed by its own payloads, in arrival order |
| Messages.EmptyQueuesComplete | Core/PublicDroneControl.py:67-76 | a new facade has a queue for each of the eight kinds, and every queue is empty |
| Messages.HitResultRoundTrip | Core/PublicDroneControl.py:19-34 | the reply `DisplayName=d ClassName=c Location=X=x Y=y Z=z`, with `d` and `c` free of whitespace and `=`, parses back to `Target(d, c, (x, y, z))` |
| Messages.HitTextWords | Core/PublicDroneControl.py:23 | `split()` of the hit reply gives back its five words |
| Messages.HitFields | Core/PublicDroneControl.py:26-32 | `split('=')` of each word yields the display name, the class name and the three coordinate texts at the indices the parser reads |
| Messages.Acknowledge | Core/PublicDroneControl.py:239-243 | the result is normal exactly when the reply is `Done`; otherwise it raises with the reply appended to the context message |
| Messages.DistanceRoundTrip | Core/PublicDroneControl.py:323-324 | a distance written by `str()` in centimetres comes back as the same value divided by 100 |
| Messages.TargetFormatOk | Core/PublicDroneControl.py:43-49 | the value is valid exactly when it is a dict with an int `collisionCount` and float `positionXVal`, `positionYVal` and `positionZVal`; `.get` on a non-dict raises AttributeError |
| Messages.ValidateTargetFormat | Core/PublicDroneControl.py:37-52 | text that is not JSON is invalid (False) rather than an error; otherwise the result is the check of the decoded value |
| Messages.ValidatedStateDecodes | Core/PublicDroneControl.py:37-52 | text that passes the validation decodes into the drone state its four keys describe |
| Messages.DroneStateJsonRoundTrip | Core/PublicDroneControl.py:296-303 | the JSON of a drone state passes the validation and decodes back to the same state |
| Messages.Number | Core/PublicDroneControl.py:300-302 | a JSON value is a number exactly when it is an int, a float or a bool |
| Messages.SpawnCount | Core/PublicDroneControl.py:379-381 | the count sent is at most 150; counts up to 150 are sent unchanged, and larger ones become 150 |
| Messages.Actors | Core/PublicDroneControl.py:389-393 | on success there are exactly `n` coordinates, entry `i` read from keys `i-XLoc`, `i-YLoc` and `i-ZLoc`; the result is an error exactly when some entry fails to decode |
| Messages.ActorsFailureSticks | Core/PublicDroneControl.py:389-393 | once an entry fails, the loop's result is that entry's error however many entries follow |
| Messages.SpawnReplyRoundTrip | Core/PublicDroneControl.py:385-396 | the reply listing coordinates `cs` under keys `i-XLoc`, `i-YLoc`, `i-ZLoc` decodes into exactly `cs`, in index order |
| Messages.EncodeActorsLookup | Core/PublicDroneControl.py:390-392 | the reply holds each actor's three coordinates under its own index keys |
| Messages.ActorKeyInjective | Core/PublicDroneControl.py:390-392 | different indices or suffixes give different keys |
| Messages.FirstIndex | Core/PublicDroneControl.py:413-414 | `list.index`: the first position holding the value; None exactly when the value is not in the list |
| Messages.DestroyIndex | Core/PublicDroneControl.py:408-418 | an index is chosen exactly when there is a target whose position is a spawned actor's, and it is the first such actor |
| Messages.OppositeShape | Core/PublicDroneControl.py:115-203 | opposite primitives drive the same control key, exactly one of them sends its multiplier negated, and the opposite of the opposite is the primitive itself |
| Messages.OppositeCommand | Core/PublicDroneControl.py:115-203 | the opposite primitive sends exactly what this one sends for the negated multiplier |
| Messages.PrimitiveValueReadsBack | Core/PublicDroneControl.py:121-202 | the number a primitive sends reads back as its multiplier, negated for down, backward, left, rotate-left and camera-up |
| DroneControl.PublicDroneControl.constructor | Core/PublicDroneControl.py:67-82 | all eight queues start empty, nothing is spawned and nothing is sent |
| DroneControl.PublicDroneControl.Listen | Core/PublicDroneControl.py:84-103 | the new queues are the routed ones: each queue gains exactly what routing delivers to it; the actors and the sent log are unchanged |
| DroneControl.PublicDroneControl.Send | Core/PublicDroneControl.py:105-111 | the message is appended to the sent log, and nothing else changes |
| DroneControl.PublicDroneControl.Take | Core/PublicDroneControl.py:239 | the oldest reply of the kind is returned and removed, and the other queues are unchanged |
| DroneControl.PublicDroneControl.SendPrimitive | Core/PublicDroneControl.py:115-203 | exactly the primitive's command is sent |
| DroneControl.PublicDroneControl.HoverDrone | Core/PublicDroneControl.py:209-215 | exactly the hover command is sent |
| DroneControl.PublicDroneControl.RotateDroneXDegreesAtSpeed | Core/PublicDroneControl.py:217-225 | the rotate command is sent, with speed 90 unless one is given |
| DroneControl.PublicDroneControl.RotateDroneTowardsLocation | Core/PublicDroneControl.py:227-243 | the command is sent and one `turnTowards` reply is taken; the call returns normally exactly when that reply is `Done` |
| DroneControl.PublicDroneControl.MoveDroneToLocation | Core/PublicDroneControl.py:245-268 | the goto command is sent, with speed 2 and `turnWithMove` true unless given and the flag written as `true`/`false`; the call returns normally exactly when the `goto` reply is `Done` |
| DroneControl.PublicDroneControl.TurnCameraXDegreesAtSpeed | Core/PublicDroneControl.py:270-284 | the command is sent, with multiplier 60 unless given; the call returns normally exactly when the `turnCameraXDeg` reply is `Done` |
| DroneControl.PublicDroneControl.GetDroneState | Core/PublicDroneControl.py:290-303 | the request is sent, and the oldest state reply is taken and decoded |
| DroneControl.PublicDroneControl.SendDroneGrade | Core/PublicDroneControl.py:305-312 | exactly the grade command is sent |
| DroneControl.PublicDroneControl.GetDistanceToCameraDirection | Core/PublicDroneControl.py:314-324 | the request is sent, and the reply is taken and converted from centimetres to metres |
| DroneControl.PublicDroneControl.GetCameraTarget | Core/PublicDroneControl.py:326-338 | the request is sent, and the reply is taken and parsed as a hit result |
| DroneControl.PublicDroneControl.GetTargetOfPoint | Core/PublicDroneControl.py:340-356 | the point request is sent, and the reply is taken and parsed as a hit result |
| DroneControl.PublicDroneControl.RequestDaytimeChange | Core/PublicDroneControl.py:362-368 | exactly the daytime command is sent |
| DroneControl.PublicDroneControl.SpawnXActors | Core/PublicDroneControl.py:370-396 | the clamped count is sent and the reply is taken; when it decodes, the coordinates replace `spawnedActors` and are returned, and otherwise the error is raised and `spawnedActors` is unchanged |
| DroneControl.ReadActors | Core/PublicDroneControl.py:388-393 | the decoding loop gives exactly the entries `0 .. n-1`, or the first failing entry's error |
| DroneControl.PublicDroneControl.DestroyIfSpawned | Core/PublicDroneControl.py:410-418 | it reports true exactly when the target stands where a spawned actor is, and only then sends `DestroyActor` with the first such index; the actors are never changed |
| DroneControl.PublicDroneControl.VerifyAndDestroyActorFromCamera | Core/PublicDroneControl.py:402-418 | the camera target is requested; a parse error escapes; otherwise the result is whether an actor was destroyed, and only the request plus any `DestroyActor` are sent |
| DroneControl.PublicDroneControl.VerifyAndDestroyActorFromPoint | Core/PublicDroneControl.py:420-436 | as from the camera, for the object behind a screen point |
| Scoring.StepAccounting | AI/GradeAI.py:91-95 | one pass takes at most one per-second deduction however long the gap, and only when a full second has passed, moving the marker to now; it takes at most one collision penalty, which stops the loop; the points plus everything taken stay constant |
| Scoring.StepRaises | AI/GradeAI.py:94-95 | a pass raises exactly when the poll raised, a None state is read by the scorer that reads it unchecked, or the image handling raised; the exception is the first of these |
| Scoring.LoopAccounting | AI/GradeAI.py:86-103 | over a whole run the points fall by exactly the deductions and penalties taken, and at most one penalty is ever taken |
| Scoring.LoopDeductionsBounded | AI/GradeAI.py:116-124 | a run takes no more per-second deductions than the seconds its marker advanced |
| Scoring.LoopEnds | AI/GradeAI.py:91 | the loop ends only when stopped, when an exception escaped, or when the run time is over |
| Scoring.StoppedLoopIsIdle | AI/GradeAI.py:91 | a loop that starts stopped does nothing |
| AiGrading.GradeAI.constructor | AI/GradeAI.py:46-62 | the points, run time, bonus, penalty and cost are copied from the simulation parameters; both result buffers start empty |
| AiGrading.GradeAI.Stop | AI/GradeAI.py:64-71 | the stop flag is set and nothing else changes, so calling it again changes nothing |
| AiGrading.GradeAI.Stopped | AI/GradeAI.py:73-78 | it reports the stop flag |
| AiGrading.GradeAI.HandleEndSimulationTime | AI/GradeAI.py:105-114 | the scorer stops exactly when the absolute time difference is strictly more than the run time |
| AiGrading.GradeAI.HandleDecreaseGradeEachSec | AI/GradeAI.py:116-124 | once a full second has passed, the cost is taken exactly once and the marker moves to now; otherwise nothing changes |
| AiGrading.GradeAI.HandleCollision | AI/GradeAI.py:126-135 | a state with a non-zero count costs exactly one penalty, whatever the count, and stops the scorer; a zero count or None changes nothing; an exception from the poll escapes |
| AiGrading.GradeAI.HandleImageFromUE | AI/GradeAI.py:137-149 | an exception from the inline worker runs escapes; otherwise the latest detections are read; no points and no buffer change |
| AiGrading.GradeAI.Run | AI/GradeAI.py:80-103 | the points and marker end as the scoring loop leaves them; an exception from the poll or the image handling ends the loop and is logged; the scorer always ends stopped |
| PlayerGrading.GradePlayer.constructor | Player/GradePlayer.py:10-22 | the points start at 0, and the penalty is 1000 unless one is given |
| PlayerGrading.GradePlayer.AddPoints | Player/GradePlayer.py:41-43 | the points rise by exactly the amount given |
| PlayerGrading.GradePlayer.Stop | Player/GradePlayer.py:45-46 | the stop flag is set and nothing else changes |
| PlayerGrading.GradePlayer.GetPoints | Player/GradePlayer.py:48-49 | it returns the points and changes nothing |
| PlayerGrading.GradePlayer.IsStopped | Player/GradePlayer.py:51-52 | it reports the stop flag |
| PlayerGrading.GradePlayer.HandlePerSecondDeduction | Player/GradePlayer.py:54-62 | once a full second has passed, exactly 1 point is taken and the marker moves to now; otherwise nothing changes |
| PlayerGrading.GradePlayer.HandleCollisions | Player/GradePlayer.py:64-69 | a non-zero count costs the penalty once and stops the scorer; a zero count changes nothing; None raises AttributeError; a poll's exception escapes |
| PlayerGrading.GradePlayer.Run | Player/GradePlayer.py:24-39 | the points and marker end as the scoring loop leaves them; a loop that ends normally stops the scorer, and an exception is caught and leaves it as the loop left it |
| LegacyGrade.Grade.constructor | Grade.py:53-56 | the four values from the grade configuration become the points, run time, collision count and collision cost |
| LegacyGrade.Grade.Stop | Grade.py:60-65 | the stop flag is set |
| LegacyGrade.Grade.Stopped | Grade.py:67-72 | it reports the stop flag |
| LegacyGrade.Grade.DecreaseGradeEachSec | Grade.py:74-80 | exactly one point is taken, with no clock check |
| LegacyGrade.Grade.PointsDecreaseCollision | Grade.py:82-92 | the count times the cost is taken, and the count is not reset |
| LegacyGrade.ChargedTwice | Grade.py:89-92 | two calls charge the same collisions twice |
| Scanning.StupidLogic | stupidScanning.py:1-28 | the nested loops build exactly the path of forward sweeps, each followed by the backward sweep when the width span is odd |
| Scanning.AscendingShape | stupidScanning.py:19-21 | element `k` of a stepped range is `lo + 500 k`, and the range has `(hi - lo) / 500 + 1` elements, or none when `hi < lo` |
| Scanning.DescendingShape | stupidScanning.py:26 | element `k` of the backward range is `hi - 500 k`, with as many elements as the forward range |
| Scanning.ScanPathLength | stupidScanning.py:16-28 | the path has (number of widths) × (number of lengths, doubled when the width span is odd) points |
| Scanning.ScanPathWithin | stupidScanning.py:19-26 | every point's length lies in the length bounds, and its width in the width bounds |
| Scanning.EmptyWidthEmptyPath | stupidScanning.py:13-19 | with no width range the path is empty |
| YoloDetection.FromList | AI/YoloDetectionObject.py:8-18 | construction succeeds exactly when the list has at least six elements, and the fields are elements 0 to 5 in order; a shorter list raises IndexError |
| YoloDetection.FromListToList | AI/YoloDetectionObject.py:13-18 | building from a detection's own fields gives the detection back |
| YoloDetection.FromListPrefix | AI/YoloDetectionObject.py:13-18 | elements beyond the sixth do not matter |
| YoloDetection.StrOfList | AI/YoloDetectionObject.py:20-24 | `__str__` and `__repr__` of a detection built from a list are that list's label |
| YoloDetection.Repr | AI/YoloDetectionObject.py:23-24 | `__repr__` equals `__str__` |
| Results.ThreadSafeResults.constructor | AI/ThreadSafeResults.py:5-7 | a new buffer holds the empty list |
| Results.ThreadSafeResults.UpdateResults | AI/ThreadSafeResults.py:9-11 | the new list replaces the old one wholesale |
| Results.ThreadSafeResults.GetLatestResults | AI/ThreadSafeResults.py:13-15 | it returns a value equal to the stored list, and reading changes nothing |
| Results.LatestWins | AI/ThreadSafeResults.py:9-15 | after two updates only the second is visible, and two reads return the same list |
| Python.Find | Core/PublicDroneControl.py:13 | the first index at which the prefix occurs, and None exactly when it occurs nowhere |
| Python.SplitJoin | Core/PublicDroneControl.py:26-32 | `split(sep)` of pieces free of `sep`, joined by `sep`, gives back the pieces |
| Python.WordsJoin | Core/PublicDroneControl.py:23 | `split()` of whitespace-free words joined by single spaces gives back the words |
| Python.NatToStringInjective | Core/PublicDroneControl.py:390-392 | different numbers have different `str()` texts |
| Python.RenderRoundTrip | Core/PublicDroneControl.py:30-32 | `float` of the text `str()` writes for a number is that number |

## Left out

- The UDP sockets, the listener thread and its infinite loop are not modelled. Sending is modelled by the `sent` log, and each received datagram by one `Listen` call. The 4096-byte receive limit and UTF-8 decoding are not modelled.
- A blocking `Queue.get()` is not modelled as blocking. The methods that await a reply require that reply to be queued already.
- Threads, `threading.Event`, locks, `time.sleep`, logging and `print` are not modelled. The stop event is a boolean field, and every method runs whole.
- `time.time()` is not called. Its values are the sequence `readings`.
- The run loops require `Scoring.Enough`: the clock passes the end of the run and there is a poll for every pass. A clock that never advances would make the source loop forever, and that is not modelled.
- `getDroneState()` inside the scorers is not called. Each pass's result is an element of `polls`.
- `_handleImageFromUE` calls `run()` inline on the YOLO and ArUco detection workers whenever they are not running. Those workers, `ArucoDetection.py` and the YOLO module are not part of this model.
- AiGrading.GradeAI.HandleImageFromUE: what the inline worker runs and result reads give is the parameter `workers`: a normal return or an exception. A worker `run()` that never returns, such as a capture loop that runs until it is stopped, is not modelled.
- AiGrading.GradeAI.Run: each pass's image handling either returns or raises, as `images` says. A pass that blocks forever in a worker's `run()` is not modelled.
- Results.ThreadSafeResults.UpdateResults: only lists are stored. A worker that stores a tuple would make `get_latest_results` raise AttributeError on `.copy()`. The model folds that exception into the image-handling outcome of `GradeAI`.
- `Grade.run` is all comments. Reading `gradeConfig` from a file is not modelled; its four values are the constructor's arguments.
- `json.loads` is not modelled. It is the parameter `loads`, which returns None where Python raises `JSONDecodeError`.
- IEEE floating point is not modelled. Numbers are reals, and a number the code writes with `str()` is a `Decimal`.
- Python.Render: command texts are modelled for numbers in decimal form only. `str()` of a float writes exponent forms such as `1e-05` and `1e+16`, and never writes a trailing zero such as `0.30`. `Render` never writes an exponent, and it writes whatever digits the `Decimal` holds.
- `Python.ParseFloat` does not accept exponents, `inf`, `nan` or underscores, and it does not render `-0.0`. Every text `Render` produces is inside what it accepts.
- Messages.DroneStateFromJson: a coordinate that is not a JSON number is a TypeError, and so is a `collisionCount` that is not a JSON int or bool: a float such as `0.0`, a string, null, a list or an object. Python would store any of these in the record unchecked.
- DroneControl.PublicDroneControl.GetDroneState: it decodes through `Messages.DroneStateFromJson`, so a reply with a non-int `collisionCount` or a non-numeric coordinate raises TypeError here. In Python it returns a state holding that value. The scorers' polls inherit this: such a state reaches them here as an exception.
- Messages.ActorEntry: a coordinate that is not a JSON number is a TypeError, for the same reason.
- Core/Coordinate.py and Core/DroneState.py are not part of this model. `Coordinate` is a value with structural equality, which is what `in` and `.index` compare by at Core/PublicDroneControl.py:413-414.
- `GradePlayer` counts points as Python ints when the penalty is an int. Here they are reals; the arithmetic is the same.
- `spawnXActors` returns the same list object that it stores, so the two alias. Here they are equal values.
- `get_latest_results` returns a copy; here that copy is a `seq` value.
- The `print` at Core/PublicDroneControl.py:383 is not modelled.
- The example call and `print` at stupidScanning.py:35-36 are module-level side effects and are not modelled.
- `stupidLogic` takes a `height` argument that it never uses. `Scanning.StupidLogic` takes it too and ignores it.
- The superseded facades `PublicDroneControl.py` and `publicDroneControl.py`, the GUI, keyboard and entry scripts, the loggers, the configuration loaders and the socket test scripts are not part of this model.
