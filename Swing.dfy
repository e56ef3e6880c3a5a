/**
 * The swing test that `main` runs: a triangle wave swept across eight
 * servos. Each tick commands every servo to the current angle (the right
 * servo to its negation, so that it mirrors the left), then advances the
 * angle at `speed` degrees per second for the time that elapsed; an
 * advance that would take the angle beyond `maxPos` is undone and the
 * direction reverses. The test stops once it has reversed twice and the
 * angle has come back to or past the midpoint, and then disables every
 * servo.
 *
 * The wall clock is replaced by a sequence of elapsed times, one per tick.
 */
module Swing {
  import opened Conversion
  import opened Discovery
  import opened Device

  const LeftServo: int := 1
  const RightServo: int := 2
  const OtherServos: seq<int> := [0, 3, 4, 5, 6, 7]

  /** The order in which a tick (and the final shutdown) addresses the channels. */
  const ServoOrder: seq<int> := [LeftServo, RightServo] + OtherServos

  /** Sweep speed in degrees per second, and the largest angle either way. */
  const Speed: real := 20.0
  const MaxPos: real := 40.0

  /** The loop state of `main`: the angle, the direction of travel and the reversal count `i`. */
  datatype Sweep = Sweep(position: real, direction: int, reversals: nat)

  /** The state before the first tick. */
  const Start: Sweep := Sweep(0.0, 1, 0)

  /** `std::fabs`. */
  function Abs(x: real): real
  {
    if x < 0.0 then -x else x
  }

  predicate UnitDirection(d: int)
  {
    d == 1 || d == -1
  }

  /** The invariant of the sweep: the angle stays within `maxPos` and the direction is a unit. */
  predicate Bounded(s: Sweep, maxPos: real)
  {
    -maxPos <= s.position <= maxPos && UnitDirection(s.direction)
  }

  /**
   * The loop guard: fewer than two reversals, or still short of the
   * midpoint in the direction of travel.
   */
  predicate Continues(s: Sweep)
    ensures UnitDirection(s.direction) ==>
      (Continues(s) <==> s.reversals < 2
                         || (s.direction == 1 && s.position < 0.0)
                         || (s.direction == -1 && s.position > 0.0))
  {
    s.reversals < 2 || s.position * (s.direction as real) < 0.0
  }

  /** The angle a tick tries to move to. */
  function Attempt(s: Sweep, elapsed: real, speed: real): real
  {
    s.position + (s.direction as real) * speed * elapsed
  }

  /**
   * The state change of one tick: either the attempted move is kept, or
   * it overshoots `maxPos`, is undone, and the direction reverses.
   */
  function Advance(s: Sweep, elapsed: real, speed: real, maxPos: real): (r: Sweep)
    ensures r.reversals == s.reversals || r.reversals == s.reversals + 1
    ensures r.reversals == s.reversals <==> Abs(Attempt(s, elapsed, speed)) <= maxPos
    ensures r.reversals == s.reversals ==>
      r.position == s.position + (s.direction as real) * speed * elapsed && r.direction == s.direction
    ensures r.reversals == s.reversals + 1 ==>
      r.position == s.position && r.direction == -s.direction
    ensures UnitDirection(s.direction) ==> UnitDirection(r.direction)
    ensures Bounded(s, maxPos) ==> Bounded(r, maxPos)
  {
    var moved := Attempt(s, elapsed, speed);
    if Abs(moved) > maxPos then Sweep(s.position, -s.direction, s.reversals + 1)
    else s.(position := moved)
  }

  /** One tick's update of position, direction and i, written as the loop body writes it. */
  method Step(s: Sweep, elapsed: real, speed: real, maxPos: real) returns (r: Sweep)
    ensures r == Advance(s, elapsed, speed, maxPos)
  {
    var position, direction, i := s.position, s.direction, s.reversals;
    position := position + (direction as real) * speed * elapsed;
    if Abs(position) > maxPos {
      position := position - (direction as real) * speed * elapsed;
      direction := -direction;
      i := i + 1;
    }
    r := Sweep(position, direction, i);
  }

  /** The state after the ticks with the given elapsed times, oldest first. */
  function Replay(s: Sweep, elapsed: seq<real>, speed: real, maxPos: real): Sweep
    decreases |elapsed|
  {
    if elapsed == [] then s
    else Advance(Replay(s, elapsed[..|elapsed| - 1], speed, maxPos), elapsed[|elapsed| - 1], speed, maxPos)
  }

  /** Every state a sweep passes through keeps the angle within `maxPos`. */
  lemma {:induction false} ReplayBounded(s: Sweep, elapsed: seq<real>, speed: real, maxPos: real)
    requires Bounded(s, maxPos)
    ensures Bounded(Replay(s, elapsed, speed, maxPos), maxPos)
    decreases |elapsed|
  {
    if elapsed != [] {
      ReplayBounded(s, elapsed[..|elapsed| - 1], speed, maxPos);
    }
  }

  /**
   * With `maxPos` at most 60 degrees, the range the source documents, no
   * angle or mirrored angle a sweep commands is ever clamped.
   */
  lemma SweepNeverClamps(s: Sweep, elapsed: seq<real>, speed: real, maxPos: real)
    requires Bounded(s, maxPos) && maxPos <= 60.0
    ensures forall k :: 0 <= k < |elapsed| ==>
      WithinBounds(Replay(s, elapsed[..k], speed, maxPos).position) &&
      WithinBounds(-Replay(s, elapsed[..k], speed, maxPos).position)
  {
    forall k | 0 <= k < |elapsed|
      ensures WithinBounds(Replay(s, elapsed[..k], speed, maxPos).position)
      ensures WithinBounds(-Replay(s, elapsed[..k], speed, maxPos).position)
    {
      var p := Replay(s, elapsed[..k], speed, maxPos).position;
      ReplayBounded(s, elapsed[..k], speed, maxPos);
      DocumentedRangeUnclamped(p);
      DocumentedRangeUnclamped(-p);
    }
  }

  /** The transfers one tick sends for the angle `position`. */
  function TickCommands(position: real): (t: seq<Transfer>)
    ensures |t| == |ServoOrder|
    ensures forall k :: 0 <= k < |t| ==> t[k].servo == ServoOrder[k]
    ensures forall k :: 0 <= k < |t| ==> MinCommand <= t[k].command <= MaxCommand
  {
    seq(|ServoOrder|, k requires 0 <= k < |ServoOrder| =>
      Transfer(ServoOrder[k], PositionCommand(if ServoOrder[k] == RightServo then -position else position)))
  }

  /**
   * A tick addresses the channels in the order 1, 2, 0, 3, 4, 5, 6, 7,
   * sends the right servo the negated angle and all others the angle, never
   * sends the disabling target, and the right servo's target mirrors the
   * left's about the centre to within one quarter-microsecond.
   */
  lemma TickCommandsShape(position: real)
    ensures |TickCommands(position)| == 8
    ensures forall k :: 0 <= k < 8 ==> TickCommands(position)[k].servo == [1, 2, 0, 3, 4, 5, 6, 7][k]
    ensures TickCommands(position)[1].command == PositionCommand(-position)
    ensures forall k :: 0 <= k < 8 && k != 1 ==> TickCommands(position)[k].command == PositionCommand(position)
    ensures forall k :: 0 <= k < 8 ==> MinCommand <= TickCommands(position)[k].command <= MaxCommand
    ensures 2 * CentreCommand - 1 <= TickCommands(position)[0].command + TickCommands(position)[1].command <= 2 * CentreCommand
  {
    MirroredCommands(position);
  }

  /** The transfers that switch every servo off at the end of the test. */
  function DisableCommands(): (t: seq<Transfer>)
    ensures |t| == 8
    ensures forall k :: 0 <= k < |t| ==> t[k].servo == ServoOrder[k]
    ensures forall k :: 0 <= k < |t| ==> t[k].command == DisabledCommand
    ensures forall channel :: 0 <= channel < 8 ==> Transfer(channel, DisabledCommand) in t
  {
    var t := seq(|ServoOrder|, k requires 0 <= k < |ServoOrder| => Transfer(ServoOrder[k], DisabledCommand));
    assert t == [Transfer(1, 0), Transfer(2, 0), Transfer(0, 0), Transfer(3, 0),
                 Transfer(4, 0), Transfer(5, 0), Transfer(6, 0), Transfer(7, 0)];
    t
  }

  /** The transfers sent by the ticks with the given elapsed times, oldest first. */
  function Transcript(s: Sweep, elapsed: seq<real>, speed: real, maxPos: real): seq<Transfer>
    decreases |elapsed|
  {
    if elapsed == [] then []
    else
      var before := elapsed[..|elapsed| - 1];
      Transcript(s, before, speed, maxPos) + TickCommands(Replay(s, before, speed, maxPos).position)
  }

  /**
   * A sweep of n ticks sends 8n transfers, every one a target within the
   * clamping bounds: a servo is never disabled while the sweep runs.
   */
  lemma {:induction false} TranscriptShape(s: Sweep, elapsed: seq<real>, speed: real, maxPos: real)
    ensures |Transcript(s, elapsed, speed, maxPos)| == 8 * |elapsed|
    ensures forall k :: 0 <= k < |Transcript(s, elapsed, speed, maxPos)| ==>
      MinCommand <= Transcript(s, elapsed, speed, maxPos)[k].command <= MaxCommand
    decreases |elapsed|
  {
    if elapsed != [] {
      var before := elapsed[..|elapsed| - 1];
      TranscriptShape(s, before, speed, maxPos);
      TickCommandsShape(Replay(s, before, speed, maxPos).position);
    }
  }

  /** One tick's commands: the left servo, the right servo mirrored, then the others in order. */
  method CommandAll(m: Maestro, position: real)
    modifies m`log
    ensures m.log == old(m.log) + TickCommands(position)
  {
    m.SetPosition(LeftServo, position);
    m.SetPosition(RightServo, -position);
    for k := 0 to |OtherServos|
      invariant m.log == old(m.log) + TickCommands(position)[..2 + k]
    {
      m.SetPosition(OtherServos[k], position);
    }
  }

  /** The final shutdown: disable the left servo, the right servo, then the others in order. */
  method DisableAll(m: Maestro)
    modifies m`log
    ensures m.log == old(m.log) + DisableCommands()
  {
    m.Disable(LeftServo);
    m.Disable(RightServo);
    for k := 0 to |OtherServos|
      invariant m.log == old(m.log) + DisableCommands()[..2 + k]
    {
      m.Disable(OtherServos[k]);
    }
  }

  /**
   * The whole program: open the controller, sweep until the guard fails,
   * then disable every servo. `elapsed` supplies the clock's reading for
   * each tick; when it runs out before the guard fails the model stops
   * there with `finished` false and no shutdown transfers. `opens` is the
   * outcome of opening the device, which the program never checks: the
   * transfers are issued either way. Returns whether
   * a Maestro was found, how many ticks ran, whether the loop exited, and
   * every transfer issued.
   */
  method SwingTest(devices: seq<Descriptor>, opens: bool, elapsed: seq<real>)
    returns (found: bool, ticks: nat, finished: bool, log: seq<Transfer>)
    ensures found <==> exists k :: 0 <= k < |devices| && IsMaestro(devices[k])
    ensures ticks <= |elapsed|
    ensures forall k :: 0 <= k < ticks ==> Continues(Replay(Start, elapsed[..k], Speed, MaxPos))
    ensures finished <==> !Continues(Replay(Start, elapsed[..ticks], Speed, MaxPos))
    ensures !finished ==> ticks == |elapsed|
    ensures forall k :: 0 <= k <= ticks ==> Bounded(Replay(Start, elapsed[..k], Speed, MaxPos), MaxPos)
    ensures log == Transcript(Start, elapsed[..ticks], Speed, MaxPos) + (if finished then DisableCommands() else [])
  {
    var m := new Maestro(devices, opens);
    found := m.valid;
    var s := Start;
    ticks := 0;
    while Continues(s) && ticks < |elapsed|
      invariant ticks <= |elapsed|
      invariant s == Replay(Start, elapsed[..ticks], Speed, MaxPos)
      invariant m.log == Transcript(Start, elapsed[..ticks], Speed, MaxPos)
      invariant forall k :: 0 <= k < ticks ==> Continues(Replay(Start, elapsed[..k], Speed, MaxPos))
      decreases |elapsed| - ticks
    {
      CommandAll(m, s.position);
      s := Step(s, elapsed[ticks], Speed, MaxPos);
      assert elapsed[..ticks + 1][..ticks] == elapsed[..ticks];
      ticks := ticks + 1;
    }
    forall k | 0 <= k <= ticks
      ensures Bounded(Replay(Start, elapsed[..k], Speed, MaxPos), MaxPos)
    {
      ReplayBounded(Start, elapsed[..k], Speed, MaxPos);
    }
    finished := !Continues(s);
    if finished {
      DisableAll(m);
    }
    log := m.log;
  }
}
