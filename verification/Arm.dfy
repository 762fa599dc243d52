/** The arm's command queue and motion loop (mainboard/main/arm.c). Angles are exact,
    in twentieths of a degree, the resolution of one tick. */
module Arm {
  import opened Common
  import opened Servo

  const CAPACITY := 4
  const RESOLUTION := 20

  datatype Command = Stop | Move(lx: i8, ly: i8, rx: i8, ry: i8)

  datatype Angles = Angles(base: int, boom: int, grapple: int, forearm: int)

  const MIN_ANGLES := Angles(-600, -200, -700, -1800)
  const MAX_ANGLES := Angles(1100, 1080, 600, 500)
  const START_ANGLES := Angles(0, -200, -700, -1800)

  /** `current` is the command the task executes: Stop while it waits for a message. */
  datatype Arm = Arm(enabled: bool, queue: seq<Command>, current: Command, angles: Angles)

  const INITIAL := Arm(false, [], Stop, START_ANGLES)

  // ---- the operations ----

  function Send(queue: seq<Command>, c: Command): seq<Command> {
    if |queue| < CAPACITY then queue + [c] else queue
  }

  predicate Deflected(v: int) { v > 4 || v < -4 }

  function CommandFor(lx: i8, ly: i8, rx: i8, ry: i8): Command {
    var (a, b, c, d) := (TruncDiv(lx, 2), TruncDiv(ly, 2), TruncDiv(rx, 2), TruncDiv(ry, 2));
    if Deflected(a) || Deflected(b) || Deflected(c) || Deflected(d) then Move(a, b, c, d) else Stop
  }

  function ArmMove(s: Arm, lx: i8, ly: i8, rx: i8, ry: i8): Arm {
    if !s.enabled then s else s.(queue := Send(s.queue, CommandFor(lx, ly, rx, ry)))
  }

  function ArmEnable(s: Arm, enabled: bool): Arm {
    if s.enabled == enabled then s
    else s.(enabled := enabled, queue := if enabled then s.queue else Send(s.queue, Stop))
  }

  predicate CanReceive(s: Arm) { s.queue != [] }

  /** The task takes the next message: it waits for one, or left its motion loop for one. */
  function Receive(s: Arm): Arm
    requires CanReceive(s)
  {
    s.(current := s.queue[0], queue := s.queue[1..])
  }

  predicate CanTick(s: Arm) { s.current.Move? && s.queue == [] }

  function Clamp(x: int, low: int, high: int): int {
    var y := if x > high then high else x;
    if y < low then low else y
  }

  /** Whole degrees of a velocity of v twentieths: the source compares integer absolute values. */
  function WholeAbs(v: int): nat { Abs(v) / RESOLUTION }

  /** The movement of one tick: on each stick only the faster axis moves, or the second on a tie. */
  function Delta(c: Command): Angles {
    match c
    case Stop => Angles(0, 0, 0, 0)
    case Move(lx, ly, rx, ry) =>
      var base: int := 0 - (lx as int);
      var left := WholeAbs(base) > WholeAbs(ly);
      var right := WholeAbs(rx) > WholeAbs(ry);
      Angles(if left then base else 0, if left then 0 else ly,
             if right then rx else 0, if right then 0 else ry)
  }

  function Moved(a: Angles, d: Angles): Angles {
    Angles(Clamp(a.base + d.base, MIN_ANGLES.base, MAX_ANGLES.base),
           Clamp(a.boom + d.boom, MIN_ANGLES.boom, MAX_ANGLES.boom),
           Clamp(a.grapple + d.grapple, MIN_ANGLES.grapple, MAX_ANGLES.grapple),
           Clamp(a.forearm + d.forearm, MIN_ANGLES.forearm, MAX_ANGLES.forearm))
  }

  function Tick(s: Arm): Arm {
    s.(angles := Moved(s.angles, Delta(s.current)))
  }

  /** The pulse width written for one angle: the angle is cut to whole degrees. */
  function Pulse(twentieths: int): u32 {
    AngleToCompare(TruncDiv(twentieths, RESOLUTION))
  }

  // ---- the task's state in place ----

  method FasterAxis(a0: int, b0: int) returns (a: int, b: int)
    ensures (a, b) == if WholeAbs(a0) > WholeAbs(b0) then (a0, 0) else (0, b0)
  {
    a, b := a0, b0;
    if Abs(a) / RESOLUTION > Abs(b) / RESOLUTION {
      b := 0;
    } else {
      a := 0;
    }
  }

  method ClampAngle(x: int, low: int, high: int) returns (y: int)
    ensures y == Clamp(x, low, high)
  {
    y := x;
    if y > high {
      y := high;
    }
    if y < low {
      y := low;
    }
  }

  class ArmTask {
    var enabled: bool
    var queue: seq<Command>
    var current: Command
    var angle1: int
    var angle2: int
    var angle3: int
    var angle4: int
    var pulses: seq<u32>

    function State(): Arm reads this {
      Arm(enabled, queue, current, Angles(angle1, angle2, angle3, angle4))
    }

    constructor ()
      ensures State() == INITIAL
      ensures pulses == [Pulse(0), Pulse(-200), Pulse(-700), Pulse(-1800)]
    {
      enabled, queue, current := false, [], Stop;
      angle1, angle2, angle3, angle4 := 0, -200, -700, -1800;
      pulses := [Pulse(0), Pulse(-200), Pulse(-700), Pulse(-1800)];
    }

    method SendCommand(c: Command)
      modifies this`queue
      ensures queue == Send(old(queue), c)
    {
      if |queue| < CAPACITY {
        queue := queue + [c];
      }
    }

    method Move(lx0: i8, ly0: i8, rx0: i8, ry0: i8)
      modifies this
      ensures State() == ArmMove(old(State()), lx0, ly0, rx0, ry0) && pulses == old(pulses)
    {
      if !enabled {
        return;
      }
      var lx, ly, rx, ry := TruncDiv(lx0, 2), TruncDiv(ly0, 2), TruncDiv(rx0, 2), TruncDiv(ry0, 2);
      if (lx > 4 || lx < -4) || (ly > 4 || ly < -4) || (rx > 4 || rx < -4) || (ry > 4 || ry < -4) {
        SendCommand(Command.Move(lx, ly, rx, ry));
      } else {
        SendCommand(Stop);
      }
    }

    method Enable(on: bool)
      modifies this
      ensures State() == ArmEnable(old(State()), on) && pulses == old(pulses)
    {
      if enabled == on {
        return;
      }
      enabled := on;
      if !enabled {
        SendCommand(Stop);
      }
    }

    method ReceiveCommand()
      requires CanReceive(State())
      modifies this
      ensures State() == Receive(old(State())) && pulses == old(pulses)
    {
      current := queue[0];
      queue := queue[1..];
    }

    /** One pass of the motion loop: integrate, clamp from above and below, set the servos. */
    method MotionTick()
      requires CanTick(State())
      modifies this
      ensures State() == Tick(old(State()))
      ensures pulses == [Pulse(angle1), Pulse(angle2), Pulse(angle3), Pulse(angle4)]
    {
      var delta1: int := 0 - (current.lx as int);
      var delta2: int := current.ly;
      var delta3: int := current.rx;
      var delta4: int := current.ry;
      delta1, delta2 := FasterAxis(delta1, delta2);
      delta3, delta4 := FasterAxis(delta3, delta4);
      angle1 := ClampAngle(angle1 + delta1, -600, 1100);
      angle2 := ClampAngle(angle2 + delta2, -200, 1080);
      angle3 := ClampAngle(angle3 + delta3, -700, 600);
      angle4 := ClampAngle(angle4 + delta4, -1800, 500);
      pulses := [Pulse(angle1), Pulse(angle2), Pulse(angle3), Pulse(angle4)];
    }
  }

  // ---- runs ----

  datatype Action = DoMove(lx: i8, ly: i8, rx: i8, ry: i8) | DoEnable(on: bool) | DoReceive | DoTick

  predicate Can(s: Arm, a: Action) {
    (a.DoReceive? ==> CanReceive(s)) && (a.DoTick? ==> CanTick(s))
  }

  function Step(s: Arm, a: Action): Arm
    requires Can(s, a)
  {
    match a
    case DoMove(lx, ly, rx, ry) => ArmMove(s, lx, ly, rx, ry)
    case DoEnable(on) => ArmEnable(s, on)
    case DoReceive => Receive(s)
    case DoTick => Tick(s)
  }

  predicate IsRun(s: Arm, run: seq<Action>)
    decreases run
  {
    run != [] ==> Can(s, run[0]) && IsRun(Step(s, run[0]), run[1..])
  }

  function After(s: Arm, run: seq<Action>): Arm
    requires IsRun(s, run)
    decreases run
  {
    if run == [] then s else After(Step(s, run[0]), run[1..])
  }

  predicate InLimits(a: Angles) {
    && MIN_ANGLES.base <= a.base <= MAX_ANGLES.base
    && MIN_ANGLES.boom <= a.boom <= MAX_ANGLES.boom
    && MIN_ANGLES.grapple <= a.grapple <= MAX_ANGLES.grapple
    && MIN_ANGLES.forearm <= a.forearm <= MAX_ANGLES.forearm
  }

  lemma SafeAngle(twentieths: int)
    requires -1800 <= twentieths <= 1800
    ensures SafePulse(Pulse(twentieths))
  {
    PulseIsSafe(TruncDiv(twentieths, RESOLUTION));
  }

  /** One step keeps the angles in their limits and the queue within its capacity; it moves
      at most one servo of each stick. */
  lemma StepIsSafe(s: Arm, a: Action)
    requires Can(s, a) && InLimits(s.angles) && |s.queue| <= CAPACITY
    ensures InLimits(Step(s, a).angles) && |Step(s, a).queue| <= CAPACITY
    ensures var t := Step(s, a).angles;
      && SafePulse(Pulse(t.base)) && SafePulse(Pulse(t.boom)) && SafePulse(Pulse(t.grapple)) && SafePulse(Pulse(t.forearm))
      && (t.base == s.angles.base || t.boom == s.angles.boom)
      && (t.grapple == s.angles.grapple || t.forearm == s.angles.forearm)
  {
    var t := Step(s, a).angles;
    SafeAngle(t.base);
    SafeAngle(t.boom);
    SafeAngle(t.grapple);
    SafeAngle(t.forearm);
  }

  /** One coordinate of a tick: it moves with the velocity, or stops at the limit on its way. */
  predicate Follows(a: int, v: int, low: int, high: int, b: int) {
    && (v == 0 ==> b == a)
    && (v > 0 ==> a <= b <= a + v && (b < a + v ==> b == high))
    && (v < 0 ==> a + v <= b <= a && (a + v < b ==> b == low))
  }

  /** The faster axis of each stick, in whole degrees, moves its servo, the base against the
      stick's sense; the other servo of the stick stays. */
  lemma TickFollowsSticks(s: Arm)
    requires s.current.Move? && InLimits(s.angles)
    ensures var c, a, b := s.current, s.angles, Tick(s).angles;
      && (if WholeAbs(c.lx) > WholeAbs(c.ly)
          then Follows(a.base, 0 - (c.lx as int), MIN_ANGLES.base, MAX_ANGLES.base, b.base) && b.boom == a.boom
          else Follows(a.boom, c.ly, MIN_ANGLES.boom, MAX_ANGLES.boom, b.boom) && b.base == a.base)
      && (if WholeAbs(c.rx) > WholeAbs(c.ry)
          then Follows(a.grapple, c.rx, MIN_ANGLES.grapple, MAX_ANGLES.grapple, b.grapple) && b.forearm == a.forearm
          else Follows(a.forearm, c.ry, MIN_ANGLES.forearm, MAX_ANGLES.forearm, b.forearm) && b.grapple == a.grapple)
  {
    assert WholeAbs(0 - (s.current.lx as int)) == WholeAbs(s.current.lx);
  }

  /** A stick counts as deflected from 10 of 128 on. */
  lemma RestIsStop(lx: i8, ly: i8, rx: i8, ry: i8)
    ensures CommandFor(lx, ly, rx, ry) == Stop
      <==> -10 < lx < 10 && -10 < ly < 10 && -10 < rx < 10 && -10 < ry < 10
  {
  }

  /** Half of a stick's value, cut toward zero. */
  lemma HalfOf(x: i8)
    ensures TruncDiv(x, 2) == if x >= 0 then x / 2 else -((-(x as int)) / 2)
    ensures Abs(TruncDiv(x, 2)) == Abs(x) / 2 && Abs(x) / 2 / 20 == Abs(x) / 40
    ensures WholeAbs(TruncDiv(x, 2)) == Abs(x) / 40
  {
  }

  /** The velocity a stick's value stands for, in twentieths of a degree for each tick. */
  function Velocity(x: i8): int { if x >= 0 then x / 2 else -((-(x as int)) / 2) }

  /** From the sticks to the angles: with the arm enabled and nothing queued, one command and one tick
      move, on each stick, the servo of the more deflected axis and no other: left and right the base,
      against the stick, and the grapple; up and down the boom and the forearm. */
  lemma SticksMoveServos(s: Arm, lx: i8, ly: i8, rx: i8, ry: i8)
    requires s.enabled && s.queue == [] && InLimits(s.angles)
    requires Abs(lx) >= 10 || Abs(ly) >= 10 || Abs(rx) >= 10 || Abs(ry) >= 10
    ensures CanReceive(ArmMove(s, lx, ly, rx, ry)) && CanTick(Receive(ArmMove(s, lx, ly, rx, ry)))
    ensures var a, b := s.angles, Tick(Receive(ArmMove(s, lx, ly, rx, ry))).angles;
      && (if Abs(lx) / 40 > Abs(ly) / 40
          then Follows(a.base, -Velocity(lx), -600, 1100, b.base) && b.boom == a.boom
          else Follows(a.boom, Velocity(ly), -200, 1080, b.boom) && b.base == a.base)
      && (if Abs(rx) / 40 > Abs(ry) / 40
          then Follows(a.grapple, Velocity(rx), -700, 600, b.grapple) && b.forearm == a.forearm
          else Follows(a.forearm, Velocity(ry), -1800, 500, b.forearm) && b.grapple == a.grapple)
  {
    HalfOf(lx);
    HalfOf(ly);
    HalfOf(rx);
    HalfOf(ry);
    RestIsStop(lx, ly, rx, ry);
    var u := Receive(ArmMove(s, lx, ly, rx, ry));
    assert u.current == Move(Velocity(lx), Velocity(ly), Velocity(rx), Velocity(ry));
    TickFollowsSticks(u);
  }

  /** The arm starts at 0, -10, -35 and -90 degrees, disabled. */
  lemma InitialAngles()
    ensures INITIAL.angles == Angles(0, -200, -700, -1800) && !INITIAL.enabled && INITIAL.queue == []
  {
  }

  /** The pulse of an angle is that of its whole degrees, cut toward zero. */
  lemma PulseOfAngle(degrees: nat, rest: nat)
    requires rest < 20
    ensures Pulse(20 * degrees + rest) == AngleToCompare(degrees)
    ensures Pulse(0 - (20 * degrees + rest)) == AngleToCompare(0 - (degrees as int))
  {
    assert (20 * degrees + rest) / 20 == degrees;
  }

  /** A larger angle never gives a shorter pulse, and a larger number of whole degrees a longer one. */
  lemma PulseFollowsAngle(a: int, b: int)
    requires -1800 <= a <= b <= 1800
    ensures Pulse(a) <= Pulse(b)
    ensures TruncDiv(a, 20) < TruncDiv(b, 20) ==> Pulse(a) < Pulse(b)
  {
    var x, y := TruncDiv(a, 20), TruncDiv(b, 20);
    assert -90 <= x <= y <= 90;
    if x < y { PulseMonotone(x, y); }
  }

  // ---- the queue refines a latest-command register ----

  datatype Register = Register(enabled: bool, latest: Command, angles: Angles)

  /** The most recently accepted command: the last still queued, else the one being executed. */
  function Latest(s: Arm): Command {
    if s.queue == [] then s.current else s.queue[|s.queue| - 1]
  }

  function Abstract(s: Arm): Register {
    Register(s.enabled, Latest(s), s.angles)
  }

  /** The command an action hands to the queue, if it hands one over and there is room. */
  function Accepted(s: Arm, a: Action): seq<Command> {
    if |s.queue| >= CAPACITY then []
    else match a
      case DoMove(lx, ly, rx, ry) => if s.enabled then [CommandFor(lx, ly, rx, ry)] else []
      case DoEnable(on) => if s.enabled && !on then [Stop] else []
      case DoReceive => []
      case DoTick => []
  }

  /** The register machine has no queue: an accepted command takes effect at once. */
  function RegisterStep(r: Register, a: Action, accepted: seq<Command>): Register {
    Register(if a.DoEnable? then a.on else r.enabled,
             if accepted == [] then r.latest else accepted[|accepted| - 1],
             if a.DoTick? then Moved(r.angles, Delta(r.latest)) else r.angles)
  }

  lemma StepRefines(s: Arm, a: Action)
    requires Can(s, a)
    ensures Abstract(Step(s, a)) == RegisterStep(Abstract(s), a, Accepted(s, a))
    ensures a.DoTick? ==> s.current == Latest(s)
  {
    if a.DoReceive? && |s.queue| > 1 {
      assert s.queue[1..][|s.queue| - 2] == s.queue[|s.queue| - 1];
    }
  }

  function RegisterAfter(s: Arm, r: Register, run: seq<Action>): Register
    requires IsRun(s, run)
    decreases run
  {
    if run == [] then r
    else RegisterAfter(Step(s, run[0]), RegisterStep(r, run[0], Accepted(s, run[0])), run[1..])
  }

  /** Every run of the queue and the motion loop moves the servos as the register machine does:
      each tick uses the most recently accepted command, and a superseded one moves nothing. */
  lemma {:induction false} QueueRefinesRegister(s: Arm, run: seq<Action>)
    requires IsRun(s, run)
    ensures Abstract(After(s, run)) == RegisterAfter(s, Abstract(s), run)
    decreases run
  {
    if run != [] {
      StepRefines(s, run[0]);
      QueueRefinesRegister(Step(s, run[0]), run[1..]);
    }
  }

  // ---- stopping ----

  predicate NeverEnables(run: seq<Action>) {
    forall i :: 0 <= i < |run| ==> run[i] != DoEnable(true)
  }

  /** A disabled arm whose latest command is Stop stays where it is until it is enabled. */
  lemma {:induction false} StoppedStays(s: Arm, run: seq<Action>)
    requires IsRun(s, run) && NeverEnables(run) && !s.enabled && Latest(s) == Stop
    ensures After(s, run).angles == s.angles && !After(s, run).enabled
    decreases run
  {
    if run != [] {
      assert run[0] != DoEnable(true);
      StepRefines(s, run[0]);
      assert NeverEnables(run[1..]) by {
        assert forall i :: 0 <= i < |run| - 1 ==> run[1..][i] == run[i + 1];
      }
      StoppedStays(Step(s, run[0]), run[1..]);
    }
  }

  /** Disabling an enabled arm leaves Stop as its latest command exactly when the queue has
      room for it, or Stop was the latest command already: a full queue drops the Stop. */
  lemma DisableStopsIffAccepted(s: Arm)
    requires s.enabled
    ensures Latest(ArmEnable(s, false)) == Stop <==> |s.queue| < CAPACITY || Latest(s) == Stop
  {
  }

  /** With room in the queue, no run after disabling changes any angle until the arm is enabled. */
  lemma DisableFreezes(s: Arm, run: seq<Action>)
    requires s.enabled && (|s.queue| < CAPACITY || Latest(s) == Stop)
    requires IsRun(ArmEnable(s, false), run) && NeverEnables(run)
    ensures After(ArmEnable(s, false), run).angles == s.angles
  {
    DisableStopsIffAccepted(s);
    StoppedStays(ArmEnable(s, false), run);
  }

  /** The run leads from s to t. */
  predicate Leads(s: Arm, run: seq<Action>, t: Arm) { IsRun(s, run) && After(s, run) == t }

  lemma {:induction false} LeadsOn(s: Arm, run: seq<Action>, t: Arm, a: Action)
    requires Leads(s, run, t) && Can(t, a)
    ensures Leads(s, run + [a], Step(t, a))
    decreases run
  {
    if run == [] {
      assert run + [a] == [a] && [a][1..] == [];
    } else {
      LeadsOn(Step(s, run[0]), run[1..], t, a);
      assert (run + [a])[1..] == run[1..] + [a];
    }
  }

  const PUSH := DoMove(0, 80, 0, 0)

  const PUSHED := Move(0, 40, 0, 0)

  /** From its start the arm can get to a full queue, with the boom about to move: it is enabled,
      takes one command, and gets four more before its task comes round. */
  lemma QueueFills() returns (s: Arm, run: seq<Action>)
    ensures Leads(INITIAL, run, s) && s == Arm(true, [PUSHED, PUSHED, PUSHED, PUSHED], PUSHED, START_ANGLES)
  {
    run, s := [], INITIAL;
    LeadsOn(INITIAL, run, s, DoEnable(true));
    run, s := run + [DoEnable(true)], Step(s, DoEnable(true));
    LeadsOn(INITIAL, run, s, PUSH);
    run, s := run + [PUSH], Step(s, PUSH);
    LeadsOn(INITIAL, run, s, DoReceive);
    run, s := run + [DoReceive], Step(s, DoReceive);
    assert s == Arm(true, [], PUSHED, START_ANGLES);
    for i := 0 to 4
      invariant Leads(INITIAL, run, s) && s.enabled && s.current == PUSHED && s.angles == START_ANGLES
      invariant |s.queue| == i && forall k :: 0 <= k < i ==> s.queue[k] == PUSHED
    {
      LeadsOn(INITIAL, run, s, PUSH);
      run, s := run + [PUSH], Step(s, PUSH);
    }
  }

  /** Without room the Stop is lost: four queued moves drain and the boom moves, arm disabled. */
  lemma DroppedStopMoves() returns (reach: seq<Action>, s: Arm, run: seq<Action>)
    ensures Leads(INITIAL, reach, s) && s.enabled && |s.queue| == CAPACITY && InLimits(s.angles)
    ensures IsRun(ArmEnable(s, false), run) && NeverEnables(run)
    ensures After(ArmEnable(s, false), run).angles.boom == s.angles.boom + 40
  {
    s, reach := QueueFills();
    var start := ArmEnable(s, false);
    var t := start;
    run := [];
    for i := 0 to 4
      invariant Leads(start, run, t) && NeverEnables(run) && t.current == PUSHED && t.angles == START_ANGLES
      invariant |t.queue| == 4 - i && forall k :: 0 <= k < 4 - i ==> t.queue[k] == PUSHED
    {
      LeadsOn(start, run, t, DoReceive);
      run, t := run + [DoReceive], Step(t, DoReceive);
    }
    LeadsOn(start, run, t, DoTick);
    run := run + [DoTick];
  }
}
