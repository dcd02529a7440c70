/** The scoring loop that AI/GradeAI.py and Player/GradePlayer.py both run:
    every pass reads the clock, takes the per-second cost once if a full second
    has passed since the last deduction, then polls the drone state and takes
    the collision penalty, which also stops the loop; GradeAI then handles the
    engine's image, which may raise.

    The clock is the sequence of values `time.time()` returns, in seconds:
    `readings[0]` is the start, `readings[1]` the first current time, and
    `readings[i + 2]` the one read in pass `i`. `polls[i]` is what
    `getDroneState()` gave in pass `i`: a state, None, or the exception it raised;
    `images[i]` is what GradeAI's `_handleImageFromUE()` gave in pass `i`. */
module Scoring {
  import opened Wrappers
  import opened Python
  import opened Records

  type Poll = Result<Option<DroneState>, Exception>

  /** What one pass's image handling gave: a normal return, or the exception
      raised by the detection workers' `run()` it calls inline or by reading
      their results. */
  type Outcome = Result<(), Exception>

  /** What distinguishes the two scorers: the run time, the cost per second, the
      collision penalty, whether a None state raises (GradePlayer reads
      `state.collisionCount` without a check) or is skipped (GradeAI), and
      whether each pass ends with the image handling (GradeAI only). */
  datatype Rules = Rules(duration: real, costPerSecond: real, collisionPenalty: real, noneRaises: bool, readsImages: bool)

  /** The loop's state: the points, the time of the last deduction, the current
      time and the stop flag; then what the loop has done so far: how many
      per-second deductions and collision penalties it took, and the exception
      that ended it, if any. */
  datatype Tally = Tally(
    points: real,
    last: real,
    now: real,
    stop: bool,
    deductions: nat,
    penalties: nat,
    fault: Option<Exception>)

  /** The per-second deduction at time `current`. */
  function Decay(t: Tally, current: real, cost: real): Tally {
    if current - t.last >= 1.0 then t.(points := t.points - cost, last := current, deductions := t.deductions + 1)
    else t
  }

  /** The collision check on one poll. */
  function Collide(t: Tally, poll: Poll, rules: Rules): Tally {
    match poll
    case Err(e) => t.(fault := Some(e))
    case Ok(None) => if rules.noneRaises then t.(fault := Some(AttributeError)) else t
    case Ok(Some(state)) =>
      if state.collisionCount != 0 then
        t.(points := t.points - rules.collisionPenalty, stop := true, penalties := t.penalties + 1)
      else t
  }

  /** The image handling, reached only when the collision check raised nothing. */
  function Look(t: Tally, image: Outcome): Tally {
    if t.fault.None? && image.Err? then t.(fault := Some(image.error)) else t
  }

  /** One pass of the loop body at clock reading `current`. */
  function Step(t: Tally, current: real, poll: Poll, image: Outcome, rules: Rules): Tally {
    var c := Collide(Decay(t.(now := current), current, rules.costPerSecond), poll, rules);
    if rules.readsImages then Look(c, image) else c
  }

  /** The image outcome of pass `i`; a scorer that handles no images has none. */
  function ImageAt(images: seq<Outcome>, i: nat, rules: Rules): Outcome
    requires rules.readsImages ==> i < |images|
  {
    if rules.readsImages then images[i] else Ok(())
  }

  /** The loop condition, with an escaped exception ending the loop as well. */
  predicate Continues(t: Tally, start: real, rules: Rules) {
    t.fault.None? && !t.stop && t.now - start < rules.duration
  }

  /** The environment runs long enough: the last clock reading is past the end of
      the run, and there is a poll, and an image outcome where the scorer reads
      images, for every pass before it. */
  predicate Enough(readings: seq<real>, polls: seq<Poll>, images: seq<Outcome>, rules: Rules) {
    && |readings| >= 2 && readings[|readings| - 1] - readings[0] >= rules.duration
    && |polls| + 2 >= |readings|
    && (rules.readsImages ==> |images| + 2 >= |readings|)
  }

  /** The state the loop ends in when it is at pass `i` in state `t`. */
  function Loop(t: Tally, readings: seq<real>, polls: seq<Poll>, images: seq<Outcome>, i: nat, rules: Rules): Tally
    requires Enough(readings, polls, images, rules)
    requires i + 1 < |readings| && t.now == readings[i + 1]
    decreases |readings| - i
  {
    if !Continues(t, readings[0], rules) then t
    else Loop(Step(t, readings[i + 2], polls[i], ImageAt(images, i, rules), rules), readings, polls, images, i + 1, rules)
  }

  /** The points plus everything taken off them so far: what the loop started with. */
  function Ledger(t: Tally, rules: Rules): real {
    t.points + t.deductions as real * rules.costPerSecond + t.penalties as real * rules.collisionPenalty
  }

  /** A pass of the loop body takes at most one per-second deduction however long
      the gap, at most one collision penalty, and nothing else off the points;
      a deduction moves the marker to the current time, which is at least a second
      after the previous one. Only the image handling can raise after a
      collision. */
  lemma StepAccounting(t: Tally, current: real, poll: Poll, image: Outcome, rules: Rules)
    ensures var r := Step(t, current, poll, image, rules);
      && r.now == current
      && Ledger(r, rules) == Ledger(t, rules)
      && t.deductions <= r.deductions <= t.deductions + 1
      && t.penalties <= r.penalties <= t.penalties + 1
      && (r.deductions > t.deductions <==> current - t.last >= 1.0)
      && r.last == (if r.deductions > t.deductions then current else t.last)
      && (r.penalties > t.penalties ==> r.stop && (r.fault == t.fault || rules.readsImages))
      && (t.stop ==> r.stop)
  {
    var u := t.(now := current);
    var d := Decay(u, current, rules.costPerSecond);
    if current - t.last >= 1.0 {
      LedgerDeduct(u, current, rules);
    }
    assert Ledger(d, rules) == Ledger(t, rules);
    var c := Collide(d, poll, rules);
    if poll.Ok? && poll.value.Some? && poll.value.value.collisionCount != 0 {
      LedgerPenalize(d, rules);
    }
    assert Ledger(c, rules) == Ledger(t, rules);
    var r := Step(t, current, poll, image, rules);
    assert r == if rules.readsImages then Look(c, image) else c;
    assert r.(fault := c.fault) == c;
  }

  /** A pass that starts without an exception raises one exactly when the poll
      raised, a None state was read where that raises, or the image handling
      raised; the exception is the first of these. */
  lemma StepRaises(t: Tally, current: real, poll: Poll, image: Outcome, rules: Rules)
    requires t.fault.None?
    ensures var r := Step(t, current, poll, image, rules);
      && (r.fault.Some? <==> poll.Err? || (poll == Ok(None) && rules.noneRaises)
                             || (rules.readsImages && image.Err?))
      && (poll.Err? ==> r.fault == Some(poll.error))
      && (poll == Ok(None) && rules.noneRaises ==> r.fault == Some(AttributeError))
      && ((poll.Ok? && !(poll.value.None? && rules.noneRaises) && rules.readsImages && image.Err?)
            ==> r.fault == Some(image.error))
  {
  }

  /** A per-second deduction keeps the ledger. */
  lemma LedgerDeduct(t: Tally, current: real, rules: Rules)
    ensures Ledger(t.(points := t.points - rules.costPerSecond, last := current, deductions := t.deductions + 1), rules)
         == Ledger(t, rules)
  {
    var c := rules.costPerSecond;
    assert (t.deductions + 1) as real * c == t.deductions as real * c + c;
  }

  /** A collision penalty keeps the ledger. */
  lemma LedgerPenalize(t: Tally, rules: Rules)
    ensures Ledger(t.(points := t.points - rules.collisionPenalty, stop := true, penalties := t.penalties + 1), rules)
         == Ledger(t, rules)
  {
    var p := rules.collisionPenalty;
    assert (t.penalties + 1) as real * p == t.penalties as real * p + p;
  }

  /** The loop ends only when it is stopped, an exception escaped, or the run
      time is over. */
  lemma {:induction false} LoopEnds(t: Tally, readings: seq<real>, polls: seq<Poll>, images: seq<Outcome>, i: nat, rules: Rules)
    requires Enough(readings, polls, images, rules)
    requires i + 1 < |readings| && t.now == readings[i + 1]
    ensures !Continues(Loop(t, readings, polls, images, i, rules), readings[0], rules)
    decreases |readings| - i
  {
    if Continues(t, readings[0], rules) {
      StepAccounting(t, readings[i + 2], polls[i], ImageAt(images, i, rules), rules);
      LoopEnds(Step(t, readings[i + 2], polls[i], ImageAt(images, i, rules), rules), readings, polls, images, i + 1, rules);
    }
  }

  /** Over a whole run the points drop by exactly the per-second deductions and
      collision penalties taken, and at most one penalty is ever taken: the first
      collision stops the loop. */
  lemma {:induction false} LoopAccounting(t: Tally, readings: seq<real>, polls: seq<Poll>, images: seq<Outcome>, i: nat, rules: Rules)
    requires Enough(readings, polls, images, rules)
    requires i + 1 < |readings| && t.now == readings[i + 1]
    ensures var r := Loop(t, readings, polls, images, i, rules);
      && Ledger(r, rules) == Ledger(t, rules)
      && t.deductions <= r.deductions
      && t.penalties <= r.penalties <= t.penalties + 1
      && (r.penalties > t.penalties ==> r.stop && (r.fault.None? || rules.readsImages))
    decreases |readings| - i
  {
    if Continues(t, readings[0], rules) {
      var s := Step(t, readings[i + 2], polls[i], ImageAt(images, i, rules), rules);
      StepAccounting(t, readings[i + 2], polls[i], ImageAt(images, i, rules), rules);
      LoopAccounting(s, readings, polls, images, i + 1, rules);
      if s.penalties > t.penalties {
        assert !Continues(s, readings[0], rules);
      }
    }
  }

  /** Each per-second deduction moves the marker on by at least a second, so a run
      takes no more deductions than the seconds between its first and last marker. */
  lemma {:induction false} LoopDeductionsBounded(t: Tally, readings: seq<real>, polls: seq<Poll>, images: seq<Outcome>, i: nat, rules: Rules)
    requires Enough(readings, polls, images, rules)
    requires i + 1 < |readings| && t.now == readings[i + 1]
    ensures var r := Loop(t, readings, polls, images, i, rules);
      t.deductions <= r.deductions && (r.deductions - t.deductions) as real <= r.last - t.last
    decreases |readings| - i
  {
    if Continues(t, readings[0], rules) {
      var s := Step(t, readings[i + 2], polls[i], ImageAt(images, i, rules), rules);
      StepAccounting(t, readings[i + 2], polls[i], ImageAt(images, i, rules), rules);
      LoopDeductionsBounded(s, readings, polls, images, i + 1, rules);
    }
  }

  /** A loop that starts stopped does nothing at all. */
  lemma StoppedLoopIsIdle(t: Tally, readings: seq<real>, polls: seq<Poll>, images: seq<Outcome>, i: nat, rules: Rules)
    requires Enough(readings, polls, images, rules)
    requires i + 1 < |readings| && t.now == readings[i + 1]
    requires t.stop
    ensures Loop(t, readings, polls, images, i, rules) == t
  {
  }
}
