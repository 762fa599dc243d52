/** The rover as a step system: the main task with its mode machine (mainboard/main/hardware.c),
    the replay task (mainboard/main/routerecorder.c) and the arm task (mainboard/main/arm.c).
    One main message, one replay wake-up, one loop top of the replay task, one arm message and
    one arm tick are each a single step. */
module Rover {
  import opened Common
  import opened PadData
  import opened Messages
  import opened Servo
  import opened ThrottleTable
  import R = RouteRecorder
  import A = Arm

  datatype Mode = Error | Autonomous | Driving | Recording | Replaying | ArmMode | Disconnected

  /** The bits of the button word the mode machine looks at for edges. */
  datatype Bit =
    | BitReverse | BitForward | BitHorn | BitLed | BitConnected
    | BitR3 | BitCross | BitRecord | BitReplay | BitAuto

  /** `locked` is the last trigger-effect command sent to the controller. */
  datatype Rover = Rover(
    mode: Mode, word: set<Bit>, throttle: u8, direction: i8, metrics: Metrics, duty: Duty,
    steeringPulse: u32, locked: bool, curve: ThrottleMap,
    rec: R.Recorder, arm: A.Arm, queue: seq<Message>, stopped: bool)

  function Initial(curve: ThrottleMap): Rover {
    Rover(Disconnected, {}, 0, 0, Metrics(0, 0, 0, 0), Duty(0, 0), AngleToCompare(0), false, curve,
          R.Initial(), A.INITIAL, [], false)
  }

  // ---- motors and steering ----

  function SetThrottle(s: Rover, t: u8, direction: i8): Rover {
    s.(throttle := t, direction := direction)
  }

  function Sign(direction: i8): i8 { if direction == 1 then 1 else -1 }

  /** The duty pair for a throttle and a direction; the channels have one bit less than the table. */
  function DutyFor(curve: ThrottleMap, t: u8, direction: i8): Duty {
    if direction == 1 then Duty(curve[t] / 2, 0) else Duty(0, curve[t] / 2)
  }

  function ProcessThrottle(s: Rover): Rover {
    s.(metrics := Metrics(s.throttle, Sign(s.direction), s.curve[s.throttle], s.metrics.steering),
       duty := DutyFor(s.curve, s.throttle, s.direction))
  }

  function ProcessSteering(s: Rover, angle: int): Rover {
    var m := s.metrics;
    s.(metrics := m.(steering := ToI16(angle)), steeringPulse := AngleToCompare(angle))
  }

  // ---- the button word ----

  predicate Was(word: set<Bit>, word': set<Bit>, b: Bit) { b in word && b !in word' }

  predicate IsNow(word: set<Bit>, word': set<Bit>, b: Bit) { b !in word && b in word' }

  predicate GoingReverse(p: Pad) { p.r2 == 0 && p.l2 != 0 }

  predicate GoingForward(p: Pad) { p.r2 != 0 }

  predicate Shows(p: Pad, b: Bit) {
    match b
    case BitHorn => R1 in p.buttons
    case BitR3 => R3 in p.buttons
    case BitRecord => Circle in p.buttons
    case BitReplay => Triangle in p.buttons
    case BitCross => Cross in p.buttons
    case BitAuto => Square in p.buttons
    case BitReverse => GoingReverse(p)
    case BitForward => GoingForward(p)
    case BitConnected => p.connected
    case BitLed => L1 in p.buttons
  }

  function WordOf(p: Pad): set<Bit> { set b: Bit | Shows(p, b) }

  // ---- entering and leaving modes ----

  function EnterDisconnected(s: Rover): Rover { s.(mode := Disconnected) }

  function EnterArm(s: Rover): Rover {
    var t := SetThrottle(s, 0, 0);
    t.(mode := ArmMode, arm := A.ArmEnable(s.arm, true), locked := true)
  }

  function ExitArm(s: Rover): Rover {
    s.(arm := A.ArmEnable(s.arm, false), locked := false)
  }

  function EnterRecording(s: Rover): Rover { s.(mode := Recording) }

  function EnterReplaying(s: Rover): Rover { s.(mode := Replaying, locked := true) }

  function ExitReplaying(s: Rover): Rover { s.(locked := false) }

  function EnterDriving(s: Rover): Rover { s.(mode := Driving) }

  function EnterAutonomous(s: Rover): Rover {
    var t := SetThrottle(s, 30, 0);
    t.(mode := Autonomous, locked := true)
  }

  /** Leaving autonomous mode stops the motors but sends no trigger unlock. */
  function ExitAutonomous(s: Rover): Rover { SetThrottle(s, 0, 0) }

  function EnterError(s: Rover): Rover {
    var t := SetThrottle(s, 0, 0);
    t.(mode := Error, locked := true)
  }

  function ExitError(s: Rover): Rover { s.(locked := false) }

  // ---- the recorder's toggles, with the message a stopped replay posts ----

  function ToggleRecord(s: Rover, now: nat): Rover {
    s.(rec := R.ToggleRecord(s.rec, now))
  }

  function ToggleReplay(s: Rover): Rover {
    s.(rec := R.ToggleReplay(s.rec),
       queue := if R.ToggleReplayPosts(s.rec) then Send(s.queue, ReplayEnd) else s.queue)
  }

  // ---- the mode handlers ----

  /** What a handler is called with: a controller record and its button word, or another message. */
  datatype Event = PadEvent(pad: Pad, word: set<Bit>) | Signal(m: Message)

  function WhenDisconnected(s: Rover, e: Event): Rover {
    if e.Signal? then s else EnterDriving(s)
  }

  function WhenAutonomous(s: Rover, e: Event): Rover {
    if e.PadEvent? && IsNow(s.word, e.word, BitAuto) then EnterDriving(ExitAutonomous(s)) else s
  }

  function WhenError(s: Rover, e: Event): Rover {
    if e.PadEvent? && IsNow(s.word, e.word, BitCross) then EnterDriving(ExitError(s)) else s
  }

  /** Live driving: the throttle and then the steering of the packet. */
  function Drive(s: Rover, p: Pad): Rover {
    ProcessSteering(
      SetThrottle(s, if GoingReverse(p) then p.l2 else p.r2, if GoingReverse(p) then 0 else 1),
      p.lx / 4)
  }

  /** The driving handler from its test of the arm button on. */
  function DrivingRest(s: Rover, e: Event): Rover
    requires e.PadEvent?
  {
    if IsNow(s.word, e.word, BitCross) then EnterArm(s)
    else if IsNow(s.word, e.word, BitAuto) then EnterAutonomous(s)
    else Drive(s, e.pad)
  }

  /** The driving handler from its test of the replay button on. */
  function DrivingReplay(s: Rover, e: Event): Rover
    requires e.PadEvent?
  {
    if IsNow(s.word, e.word, BitReplay) then
      var s1 := ToggleReplay(s);
      if s1.rec.replaying then EnterReplaying(s1) else DrivingRest(s1, e)
    else DrivingRest(s, e)
  }

  function WhenDriving(s: Rover, e: Event, now: nat): Rover {
    if e.Signal? then
      if e.m == Collision || e.m == ObstructionDetected then EnterError(s) else s
    else if Was(s.word, e.word, BitConnected) then EnterDisconnected(s)
    else if IsNow(s.word, e.word, BitRecord) then
      var s1 := ToggleRecord(s, now);
      if s1.rec.recording then EnterRecording(s1) else DrivingReplay(s1, e)
    else DrivingReplay(s, e)
  }

  /** Live driving with one call of the recorder: the metrics it gets hold this packet's steering
      but the throttle applied after an earlier one. */
  function RecordingDrive(s: Rover, p: Pad, now: nat): Rover {
    var s1 := Drive(s, p);
    var s2 := s1.(rec := R.RecordProcess(s1.rec, s1.metrics, now));
    if !s2.rec.recording then EnterDriving(s2) else s2
  }

  function WhenRecording(s: Rover, e: Event, now: nat): Rover {
    if e.Signal? then s
    else if Was(s.word, e.word, BitConnected) then EnterDisconnected(s)
    else if IsNow(s.word, e.word, BitRecord) then
      var s1 := ToggleRecord(s, now);
      if !s1.rec.recording then EnterDriving(s1) else RecordingDrive(s1, e.pad, now)
    else RecordingDrive(s, e.pad, now)
  }

  function WhenReplaying(s: Rover, e: Event): Rover {
    if e.Signal? then
      if e.m == ReplayEnd && !s.rec.replaying then EnterDriving(ExitReplaying(s)) else s
    else if Was(s.word, e.word, BitConnected) then EnterDisconnected(ExitReplaying(s))
    else if IsNow(s.word, e.word, BitReplay) then
      var s1 := ToggleReplay(s);
      if !s1.rec.replaying then EnterDriving(ExitReplaying(s1)) else s1
    else s
  }

  function WhenArm(s: Rover, e: Event): Rover {
    if e.Signal? then s
    else if Was(s.word, e.word, BitConnected) then EnterDisconnected(ExitArm(s))
    else if IsNow(s.word, e.word, BitCross) then EnterDriving(ExitArm(s))
    else s.(arm := A.ArmMove(s.arm, e.pad.lx, e.pad.ly, e.pad.rx, e.pad.ry))
  }

  function Dispatch(s: Rover, e: Event, now: nat): Rover {
    match s.mode
    case Error => WhenError(s, e)
    case Autonomous => WhenAutonomous(s, e)
    case Driving => WhenDriving(s, e, now)
    case Recording => WhenRecording(s, e, now)
    case Replaying => WhenReplaying(s, e)
    case ArmMode => WhenArm(s, e)
    case Disconnected => WhenDisconnected(s, e)
  }

  // ---- the main task ----

  function ProcessPad(s: Rover, p: Pad, now: nat): Rover {
    var t := ProcessThrottle(Dispatch(s, PadEvent(p, WordOf(p)), now));
    t.(word := WordOf(p))
  }

  function ProcessSignal(s: Rover, m: Message, now: nat): Rover {
    ProcessThrottle(Dispatch(s, Signal(m), now))
  }

  function HandleMessage(s: Rover, m: Message, now: nat): Rover {
    match m
    case StopMain => s.(stopped := true)
    case Ps5(f) => if Received(f).latest then ProcessPad(s, Received(f), now) else s
    case ReplayEnd => ProcessSignal(s, m, now)
    case ObstructionDetected => ProcessSignal(s, m, now)
    case ObstructionCleared => ProcessSignal(s, m, now)
    case Collision => ProcessSignal(s, m, now)
  }

  // ---- steps and runs ----

  datatype Action =
    | Main(now: nat) | ReplayTop | ReplayWake | ArmReceive | ArmTick | Arrive(m: Message)

  predicate Can(s: Rover, a: Action) {
    match a
    case Main(_) => !s.stopped && s.queue != []
    case ReplayTop => s.rec.pc == R.LoopTop
    case ReplayWake => s.rec.pc.Delaying?
    case ArmReceive => A.CanReceive(s.arm)
    case ArmTick => A.CanTick(s.arm)
    case Arrive(_) => true
  }

  /** The replay task from its delay on: throttle, motors, then steering of one sample. */
  function WakeStep(s: Rover): Rover {
    var r := s.rec;
    if !R.WakeIssues(r) then s.(rec := R.ReplayWake(r))
    else
      var x := r.route[r.cursor];
      var t := ProcessSteering(ProcessThrottle(SetThrottle(s, ToU8(x.throttle), x.direction)), x.steering);
      t.(rec := R.ReplayWake(r), queue := if R.WakeEnds(r) then Send(s.queue, ReplayEnd) else s.queue)
  }

  function Step(s: Rover, a: Action): Rover
    requires Can(s, a)
  {
    match a
    case Main(now) =>
      var taken := s.(queue := s.queue[1..]);
      HandleMessage(taken, s.queue[0], now)
    case ReplayTop => s.(rec := R.ReplayTop(s.rec))
    case ReplayWake => WakeStep(s)
    case ArmReceive => s.(arm := A.Receive(s.arm))
    case ArmTick => s.(arm := A.Tick(s.arm))
    case Arrive(m) => s.(queue := Send(s.queue, m))
  }

  predicate IsRun(s: Rover, run: seq<Action>)
    decreases run
  {
    run != [] ==> Can(s, run[0]) && IsRun(Step(s, run[0]), run[1..])
  }

  function After(s: Rover, run: seq<Action>): Rover
    requires IsRun(s, run)
    decreases run
  {
    if run == [] then s else After(Step(s, run[0]), run[1..])
  }

  predicate Leads(s: Rover, run: seq<Action>, t: Rover) {
    IsRun(s, run) && After(s, run) == t
  }

  lemma {:induction false} LeadsOn(s: Rover, a: seq<Action>, t: Rover, b: seq<Action>, u: Rover)
    requires Leads(s, a, t) && Leads(t, b, u)
    ensures Leads(s, a + b, u)
    decreases a
  {
    if a == [] {
      assert a + b == b;
    } else {
      LeadsOn(Step(s, a[0]), a[1..], t, b, u);
      assert (a + b)[1..] == a[1..] + b;
    }
  }

  lemma LeadsOne(s: Rover, a: Action)
    requires Can(s, a)
    ensures Leads(s, [a], Step(s, a))
  {
    assert [a][1..] == [];
  }
}
