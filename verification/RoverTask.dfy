/** The firmware as it runs, over mutable state: each function of mainboard/main/hardware.c is a
    method that takes the step of the model, and whole schedules of the three tasks keep what the
    model's runs keep. */
module RoverTask {
  import opened Common
  import opened PadData
  import opened Messages
  import opened Servo
  import opened ThrottleTable
  import R = RouteRecorder
  import A = Arm
  import M = Rover
  import I = RoverInvariants
  import P = RoverProtocol

  /** Clearing the checksum changes nothing else that a frame says. */
  lemma BodyDecodes(f: Frame, g: Frame)
    requires f[..BODY_SIZE] == g[..BODY_SIZE]
    ensures Decode(f) == Decode(g)
  {
    assert forall i :: 0 <= i < BODY_SIZE ==> f[..BODY_SIZE][i] == f[i] && g[..BODY_SIZE][i] == g[i];
    assert f[9..19] == f[..BODY_SIZE][9..19] && g[9..19] == g[..BODY_SIZE][9..19];
    forall b: Button ensures Pressed(f, b) <==> Pressed(g, b) {
      assert 6 + Slot(b) / 8 < BODY_SIZE;
    }
  }

  /** The checksum path of `hardware_run`: what the buffer of a frame becomes. */
  method ReadFrame(frame: Frame) returns (p: Pad)
    ensures p == Received(frame)
  {
    var data := new u8[FRAME_SIZE](i requires 0 <= i < FRAME_SIZE => frame[i]);
    assert data[..] == frame;
    var received := data[BODY_SIZE];
    data[BODY_SIZE] := 0;
    var c := SumBytes(data);
    assert data[..BODY_SIZE] == frame[..BODY_SIZE];
    p := Decode(data[..]);
    BodyDecodes(data[..], frame);
    if received != c {
      p := NeutralPad(true, true);
    }
    if !p.connected {
      p := NeutralPad(true, false);
    }
  }

  /** The disciplines that are to hold, and their conditions on the rest of the schedule. */
  predicate Kept(s: M.Rover, run: seq<M.Action>, quiet: bool, room: bool, inside: bool)
    requires M.IsRun(s, run)
  {
    && (quiet ==> P.Coupled(s) && P.QuietRun(s, run))
    && (room ==> P.NotStranded(s) && P.RoomRun(s, run))
    && (inside ==> P.InRoute(s) && P.StartsInsideRun(s, run))
  }

  lemma Carry(s: M.Rover, run: seq<M.Action>, quiet: bool, room: bool, inside: bool)
    requires I.Inv(s) && M.IsRun(s, run) && run != [] && Kept(s, run, quiet, room, inside)
    ensures Kept(M.Step(s, run[0]), run[1..], quiet, room, inside)
  {
    if quiet { P.StepCoupled(s, run[0]); }
    if room { P.StepNotStranded(s, run[0]); }
    if inside { P.StepInRouteIff(s, run[0]); }
  }

  class MainTask {
    var mode: M.Mode
    var word: set<M.Bit>
    var throttle: u8
    var direction: i8
    var metrics: Metrics
    var duty: Duty
    var steeringPulse: u32
    var locked: bool
    var stopped: bool
    const curve: ThrottleMap
    const rec: R.RecorderTask
    const arm: A.ArmTask
    const queue: MessageQueue

    predicate Valid() reads this, rec { rec.Valid() }

    function State(): M.Rover
      requires Valid()
      reads this, rec, rec.route, arm, queue
    {
      M.Rover(mode, word, throttle, direction, metrics, duty, steeringPulse, locked, curve,
              rec.State(), arm.State(), queue.messages, stopped)
    }

    constructor (curve: ThrottleMap)
      ensures Valid() && State() == M.Initial(curve)
      ensures fresh(rec) && fresh(rec.route) && fresh(arm) && fresh(queue)
    {
      this.curve := curve;
      mode, word := M.Disconnected, {};
      throttle, direction := 0, 0;
      metrics, duty := Metrics(0, 0, 0, 0), Duty(0, 0);
      steeringPulse := AngleToCompare(0);
      locked, stopped := false, false;
      rec := new R.RecorderTask();
      arm := new A.ArmTask();
      queue := new MessageQueue();
    }

    // ---- motors and steering ----

    method SetThrottle(t: u8, d: i8)
      requires Valid()
      modifies this
      ensures Valid() && State() == M.SetThrottle(old(State()), t, d)
    {
      throttle := t;
      direction := d;
    }

    /** The PWM unit takes one bit less than the throttle table has. */
    method SetDuties(forward: u16, reverse: u16)
      requires Valid()
      modifies this
      ensures Valid() && State() == old(State()).(duty := Duty(forward / 2, reverse / 2))
    {
      duty := Duty(forward / 2, reverse / 2);
    }

    method ProcessThrottle()
      requires Valid()
      modifies this
      ensures Valid() && State() == M.ProcessThrottle(old(State()))
    {
      var power := curve[throttle];
      if direction == 1 {
        metrics := Metrics(throttle, 1, power, metrics.steering);
      } else {
        metrics := Metrics(throttle, -1, power, metrics.steering);
      }
      if direction == 1 {
        SetDuties(power, 0);
      } else {
        SetDuties(0, power);
      }
    }

    method ProcessSteering(angle: int)
      requires Valid()
      modifies this
      ensures Valid() && State() == M.ProcessSteering(old(State()), angle)
    {
      metrics := Metrics(metrics.throttle, metrics.direction, metrics.pwm, ToI16(angle));
      steeringPulse := AngleToCompare(angle);
    }

    // ---- entering and leaving modes ----

    method EnterDisconnected()
      requires Valid()
      modifies this
      ensures Valid() && State() == M.EnterDisconnected(old(State()))
    {
      mode := M.Disconnected;
    }

    method EnterArm()
      requires Valid()
      modifies this, arm
      ensures Valid() && State() == M.EnterArm(old(State()))
    {
      mode := M.ArmMode;
      SetThrottle(0, 0);
      arm.Enable(true);
      locked := true;
    }

    method ExitArm()
      requires Valid()
      modifies this, arm
      ensures Valid() && State() == M.ExitArm(old(State()))
    {
      arm.Enable(false);
      locked := false;
    }

    method EnterRecording()
      requires Valid()
      modifies this
      ensures Valid() && State() == M.EnterRecording(old(State()))
    {
      mode := M.Recording;
    }

    method EnterReplaying()
      requires Valid()
      modifies this
      ensures Valid() && State() == M.EnterReplaying(old(State()))
    {
      mode := M.Replaying;
      locked := true;
    }

    method ExitReplaying()
      requires Valid()
      modifies this
      ensures Valid() && State() == M.ExitReplaying(old(State()))
    {
      locked := false;
    }

    method EnterDriving()
      requires Valid()
      modifies this
      ensures Valid() && State() == M.EnterDriving(old(State()))
    {
      mode := M.Driving;
    }

    method EnterAutonomous()
      requires Valid()
      modifies this
      ensures Valid() && State() == M.EnterAutonomous(old(State()))
    {
      mode := M.Autonomous;
      SetThrottle(30, 0);
      locked := true;
    }

    method ExitAutonomous()
      requires Valid()
      modifies this
      ensures Valid() && State() == M.ExitAutonomous(old(State()))
    {
      SetThrottle(0, 0);
    }

    method EnterError()
      requires Valid()
      modifies this
      ensures Valid() && State() == M.EnterError(old(State()))
    {
      locked := true;
      SetThrottle(0, 0);
      mode := M.Error;
    }

    method ExitError()
      requires Valid()
      modifies this
      ensures Valid() && State() == M.ExitError(old(State()))
    {
      locked := false;
    }

    // ---- the mode handlers ----

    method WhenDisconnected(e: M.Event)
      requires Valid()
      modifies this
      ensures Valid() && State() == M.WhenDisconnected(old(State()), e)
    {
      if e.Signal? {
        return;
      }
      EnterDriving();
    }

    method WhenAutonomous(e: M.Event)
      requires Valid()
      modifies this
      ensures Valid() && State() == M.WhenAutonomous(old(State()), e)
    {
      if e.PadEvent? {
        if M.IsNow(word, e.word, M.BitAuto) {
          ExitAutonomous();
          EnterDriving();
          return;
        }
      }
    }

    method WhenError(e: M.Event)
      requires Valid()
      modifies this
      ensures Valid() && State() == M.WhenError(old(State()), e)
    {
      if e.PadEvent? {
        if M.IsNow(word, e.word, M.BitCross) {
          ExitError();
          EnterDriving();
          return;
        }
      }
    }

    method Drive(p: Pad)
      requires Valid()
      modifies this
      ensures Valid() && State() == M.Drive(old(State()), p)
    {
      var angle := p.lx / 4;
      var reverse := M.GoingReverse(p);
      SetThrottle(if reverse then p.l2 else p.r2, if reverse then 0 else 1);
      ProcessSteering(angle);
    }

    /** The driving handler from its test of the arm button on. */
    method DrivingRest(e: M.Event)
      requires Valid() && e.PadEvent?
      modifies this, arm
      ensures Valid() && State() == M.DrivingRest(old(State()), e)
    {
      if M.IsNow(word, e.word, M.BitCross) {
        EnterArm();
        return;
      }
      if M.IsNow(word, e.word, M.BitAuto) {
        EnterAutonomous();
        return;
      }
      Drive(e.pad);
    }

    /** The driving handler from its test of the replay button on. */
    method DrivingReplay(e: M.Event)
      requires Valid() && e.PadEvent?
      modifies this, rec, arm, queue
      ensures Valid() && State() == M.DrivingReplay(old(State()), e)
    {
      if M.IsNow(word, e.word, M.BitReplay) {
        rec.ToggleReplaying(queue);
        if rec.replaying {
          EnterReplaying();
          return;
        }
      }
      DrivingRest(e);
    }

    method WhenDriving(e: M.Event, now: nat)
      requires Valid() && mode == M.Driving
      modifies this, rec, arm, queue
      ensures Valid() && State() == M.WhenDriving(old(State()), e, now)
    {
      if e.Signal? {
        if e.m == Collision || e.m == ObstructionDetected {
          EnterError();
        }
        return;
      }
      if M.Was(word, e.word, M.BitConnected) {
        EnterDisconnected();
        return;
      }
      if M.IsNow(word, e.word, M.BitRecord) {
        rec.ToggleRecording(now);
        if rec.recording {
          EnterRecording();
          return;
        }
      }
      DrivingReplay(e);
    }

    /** The recording handler from its live driving on. */
    method RecordingDrive(p: Pad, now: nat)
      requires Valid()
      modifies this, rec, rec.route
      ensures Valid() && State() == M.RecordingDrive(old(State()), p, now)
    {
      Drive(p);
      rec.Process(metrics, now);
      if !rec.recording {
        EnterDriving();
        return;
      }
    }

    method WhenRecording(e: M.Event, now: nat)
      requires Valid()
      modifies this, rec, rec.route
      ensures Valid() && State() == M.WhenRecording(old(State()), e, now)
    {
      if e.Signal? {
        return;
      }
      if M.Was(word, e.word, M.BitConnected) {
        EnterDisconnected();
        return;
      }
      if M.IsNow(word, e.word, M.BitRecord) {
        rec.ToggleRecording(now);
        if !rec.recording {
          EnterDriving();
          return;
        }
      }
      RecordingDrive(e.pad, now);
    }

    method WhenReplaying(e: M.Event)
      requires Valid()
      modifies this, rec, queue
      ensures Valid() && State() == M.WhenReplaying(old(State()), e)
    {
      if e == M.Signal(ReplayEnd) {
        if !rec.replaying {
          ExitReplaying();
          EnterDriving();
        }
        return;
      }
      if e.Signal? {
        return;
      }
      if M.Was(word, e.word, M.BitConnected) {
        ExitReplaying();
        EnterDisconnected();
        return;
      }
      if M.IsNow(word, e.word, M.BitReplay) {
        rec.ToggleReplaying(queue);
        if !rec.replaying {
          ExitReplaying();
          EnterDriving();
          return;
        }
      }
    }

    method WhenArm(e: M.Event)
      requires Valid()
      modifies this, arm
      ensures Valid() && State() == M.WhenArm(old(State()), e)
    {
      if e.Signal? {
        return;
      }
      if M.Was(word, e.word, M.BitConnected) {
        ExitArm();
        EnterDisconnected();
        return;
      }
      if M.IsNow(word, e.word, M.BitCross) {
        ExitArm();
        EnterDriving();
        return;
      }
      arm.Move(e.pad.lx, e.pad.ly, e.pad.rx, e.pad.ry);
    }

    /** The call through the current state's function pointer. */
    method Dispatch(e: M.Event, now: nat)
      requires Valid()
      modifies this, rec, rec.route, arm, queue
      ensures Valid() && State() == M.Dispatch(old(State()), e, now)
    {
      match mode
      case Error => WhenError(e);
      case Autonomous => WhenAutonomous(e);
      case Driving => WhenDriving(e, now);
      case Recording => WhenRecording(e, now);
      case Replaying => WhenReplaying(e);
      case ArmMode => WhenArm(e);
      case Disconnected => WhenDisconnected(e);
    }

    // ---- messages ----

    method ProcessOtherMessage(m: Message, now: nat)
      requires Valid()
      modifies this, rec, rec.route, arm, queue
      ensures Valid() && State() == M.ProcessSignal(old(State()), m, now)
    {
      Dispatch(M.Signal(m), now);
      ProcessThrottle();
    }

    method ProcessPs5Message(p: Pad, now: nat)
      requires Valid()
      modifies this, rec, rec.route, arm, queue
      ensures Valid() && State() == M.ProcessPad(old(State()), p, now)
    {
      var newWord := M.WordOf(p);
      Dispatch(M.PadEvent(p, newWord), now);
      ProcessThrottle();
      word := newWord;
    }

    method Handle(m: Message, now: nat)
      requires Valid()
      modifies this, rec, rec.route, arm, queue
      ensures Valid() && State() == M.HandleMessage(old(State()), m, now)
    {
      match m
      case StopMain => stopped := true;
      case Ps5(frame) =>
        var p := ReadFrame(frame);
        if p.latest {
          ProcessPs5Message(p, now);
        }
      case ReplayEnd => ProcessOtherMessage(m, now);
      case ObstructionDetected => ProcessOtherMessage(m, now);
      case ObstructionCleared => ProcessOtherMessage(m, now);
      case Collision => ProcessOtherMessage(m, now);
    }

    /** One pass of the loop of `hardware_run`, with a message in the queue. */
    method HandleNext(now: nat)
      requires Valid() && M.Can(State(), M.Main(now))
      modifies this, rec, rec.route, arm, queue
      ensures Valid() && State() == M.Step(old(State()), M.Main(now))
    {
      var m := queue.Take();
      Handle(m, now);
    }

    // ---- the replay task ----

    method ReplayTop()
      requires Valid() && M.Can(State(), M.ReplayTop)
      modifies rec
      ensures Valid() && State() == M.Step(old(State()), M.ReplayTop)
    {
      rec.Top();
    }

    method ReplayWake()
      requires Valid() && M.Can(State(), M.ReplayWake)
      modifies this, rec, queue
      ensures Valid() && State() == M.Step(old(State()), M.ReplayWake)
    {
      var issued, sample := rec.Wake(queue);
      if issued {
        SetThrottle(ToU8(sample.throttle), sample.direction);
        ProcessThrottle();
        ProcessSteering(sample.steering);
      }
    }

    // ---- schedules ----

    /** One step of any task. */
    method Execute(a: M.Action)
      requires Valid() && M.Can(State(), a)
      modifies this, rec, rec.route, arm, queue
      ensures Valid() && State() == M.Step(old(State()), a)
      ensures I.Inv(old(State())) ==> I.Inv(State())
    {
      if I.Inv(State()) { I.StepKeeps(State(), a); }
      match a
      case Main(now) => HandleNext(now);
      case ReplayTop => ReplayTop();
      case ReplayWake => ReplayWake();
      case ArmReceive => arm.ReceiveCommand();
      case ArmTick => arm.MotionTick();
      case Arrive(m) => queue.Put(m);
    }

    /** A schedule of the tasks, step by step. It keeps the invariant; and flags coupled to modes,
        ends of replays noticeable and replays inside their routes, as long as their conditions on
        the steps hold. */
    method Perform(run: seq<M.Action>)
      requires Valid() && M.IsRun(State(), run) && I.Inv(State())
      modifies this, rec, rec.route, arm, queue
      ensures Valid() && State() == M.After(old(State()), run) && I.Inv(State())
      ensures P.Coupled(old(State())) && P.QuietRun(old(State()), run) ==> P.Coupled(State())
      ensures P.NotStranded(old(State())) && P.RoomRun(old(State()), run) ==> P.NotStranded(State())
      ensures P.InRoute(old(State())) && P.StartsInsideRun(old(State()), run) ==> P.InRoute(State())
    {
      ghost var start := State();
      ghost var quiet := P.Coupled(start) && P.QuietRun(start, run);
      ghost var room := P.NotStranded(start) && P.RoomRun(start, run);
      ghost var inside := P.InRoute(start) && P.StartsInsideRun(start, run);
      for i := 0 to |run|
        invariant Valid() && M.IsRun(State(), run[i..]) && M.After(State(), run[i..]) == M.After(start, run)
        invariant I.Inv(State())
        invariant Kept(State(), run[i..], quiet, room, inside)
      {
        assert run[i..][0] == run[i] && run[i..][1..] == run[i + 1..];
        Carry(State(), run[i..], quiet, room, inside);
        Execute(run[i]);
      }
    }
  }

  /** The firmware from its start through any schedule: nothing it does breaks the invariant, and
      each discipline whose condition its steps meet holds. */
  method Boot(curve: ThrottleMap, run: seq<M.Action>) returns (task: MainTask)
    requires M.IsRun(M.Initial(curve), run)
    ensures task.Valid() && task.State() == M.After(M.Initial(curve), run) && I.Inv(task.State())
    ensures P.QuietRun(M.Initial(curve), run) ==> P.Coupled(task.State())
    ensures P.RoomRun(M.Initial(curve), run) ==> P.NotStranded(task.State())
    ensures P.StartsInsideRun(M.Initial(curve), run) ==> P.InRoute(task.State())
  {
    task := new MainTask(curve);
    I.InitialInv(curve);
    P.InitialDiscipline(curve);
    task.Perform(run);
  }
}
