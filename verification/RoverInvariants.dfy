/** What every interleaving of the three tasks keeps. */
module RoverInvariants {
  import opened Common
  import opened PadData
  import opened Messages
  import opened Servo
  import opened ThrottleTable
  import opened Rover
  import R = RouteRecorder
  import A = Arm

  /** Recording excludes replaying; the two modes agree with the flags as far as they must. */
  predicate Modes(s: Rover) {
    && !(s.rec.recording && s.rec.replaying)
    && (s.mode == Recording ==> s.rec.recording)
    && (s.mode == Replaying ==> !s.rec.recording)
    && (s.rec.pc == R.Parked ==> s.rec.cursor == 0)
    && |s.queue| <= QUEUE_SIZE
  }

  /** The arm is enabled exactly in arm mode, and its angles stay in their limits. */
  predicate ArmSafe(s: Rover) {
    (s.arm.enabled <==> s.mode == ArmMode) && A.InLimits(s.arm.angles) && |s.arm.queue| <= A.CAPACITY
  }

  predicate SafeSteering(angle: int) { -32 <= angle < 32 }

  /** Every stored throttle came from an 8-bit one, so that replaying it narrows nothing. */
  predicate SafeRoute(route: seq<R.Sample>) {
    forall i :: 0 <= i < |route| ==> SafeSteering(route[i].steering) && route[i].throttle < 256
  }

  /** Every slot of the route, recorded or not, and every steering command is a safe angle. */
  predicate SteeringSafe(s: Rover) {
    SafeSteering(s.metrics.steering) && s.metrics.throttle < 256 && SafePulse(s.steeringPulse) && SafeRoute(s.rec.route)
  }

  /** The triggers are locked in the modes that lock them. */
  predicate LocksHold(s: Rover) {
    s.mode in {ArmMode, Replaying, Autonomous, Error} ==> s.locked
  }

  predicate Kept(s: Rover) {
    Modes(s) && ArmSafe(s) && SteeringSafe(s) && LocksHold(s)
  }

  /** The motors and the metrics follow the commanded throttle; the reported direction does
      from the first handled message on. */
  predicate MotorsFollow(s: Rover) {
    && s.metrics.throttle == s.throttle
    && s.metrics.pwm == s.curve[s.throttle]
    && s.duty == DutyFor(s.curve, s.throttle, s.direction)
    && (s.mode != Disconnected ==> s.metrics.direction == Sign(s.direction))
  }

  predicate Inv(s: Rover) { Kept(s) && MotorsFollow(s) }

  /** With the throttle table in use the duties fit the PWM channels' 12 bits, one of them is
      always zero, and both are exactly when the throttle is. */
  lemma DutyInRange(t: u8, direction: i8)
    ensures IsCurve(ThrottleMapHigh())
    ensures var d := DutyFor(ThrottleMapHigh(), t, direction);
      d.forward <= 4095 && d.reverse <= 4095 && (d.forward == 0 || d.reverse == 0) && (d == Duty(0, 0) <==> t == 0)
  {
    TableIsCurve();
    var m := ThrottleMapHigh();
    if t > 0 { assert m[t] >= m[1] && m[1] == ROW0[1]; }
  }

  // ---- the parts of a handler ----

  lemma DriveKeeps(s: Rover, p: Pad)
    requires Kept(s)
    ensures Kept(Drive(s, p))
  {
    PulseIsSafe(p.lx / 4);
  }

  lemma ToggleKeeps(s: Rover, now: nat)
    requires Kept(s) && s.mode == Driving
    ensures Kept(ToggleRecord(s, now)) && Kept(ToggleReplay(s))
  {
  }

  lemma DrivingRestKeeps(s: Rover, e: Event)
    requires Kept(s) && s.mode == Driving && e.PadEvent?
    ensures Kept(DrivingRest(s, e))
  {
    DriveKeeps(s, e.pad);
  }

  lemma DrivingReplayKeeps(s: Rover, e: Event)
    requires Kept(s) && s.mode == Driving && e.PadEvent?
    ensures Kept(DrivingReplay(s, e))
  {
    ToggleKeeps(s, 0);
    DrivingRestKeeps(s, e);
    DrivingRestKeeps(ToggleReplay(s), e);
  }

  lemma DrivingKeeps(s: Rover, e: Event, now: nat)
    requires Kept(s) && s.mode == Driving
    ensures Kept(WhenDriving(s, e, now))
  {
    if e.PadEvent? {
      ToggleKeeps(s, now);
      DrivingReplayKeeps(s, e);
      DrivingReplayKeeps(ToggleRecord(s, now), e);
    }
  }

  lemma RecordSafe(r: R.Recorder, m: Metrics, now: nat)
    requires SafeSteering(m.steering) && m.throttle < 256 && SafeRoute(r.route)
    ensures SafeRoute(R.RecordProcess(r, m, now).route)
  {
  }

  lemma RecordingDriveKeeps(s: Rover, p: Pad, now: nat)
    requires Kept(s) && s.mode == Recording
    ensures Kept(RecordingDrive(s, p, now))
  {
    DriveKeeps(s, p);
    var t := Drive(s, p);
    RecordSafe(t.rec, t.metrics, now);
  }

  lemma RecordingKeeps(s: Rover, e: Event, now: nat)
    requires Kept(s) && s.mode == Recording
    ensures Kept(WhenRecording(s, e, now))
  {
    if e.PadEvent? { RecordingDriveKeeps(s, e.pad, now); }
  }

  lemma ReplayingKeeps(s: Rover, e: Event)
    requires Kept(s) && s.mode == Replaying
    ensures Kept(WhenReplaying(s, e))
  {
  }

  lemma DispatchKeeps(s: Rover, e: Event, now: nat)
    requires Kept(s)
    ensures Kept(Dispatch(s, e, now))
  {
    match s.mode
    case Driving => DrivingKeeps(s, e, now);
    case Recording => RecordingKeeps(s, e, now);
    case Replaying => ReplayingKeeps(s, e);
    case Error =>
    case Autonomous =>
    case ArmMode =>
    case Disconnected =>
  }

  // ---- steps ----

  lemma ThrottleKeeps(s: Rover)
    requires Kept(s)
    ensures Inv(ProcessThrottle(s))
  {
  }

  lemma PadKeeps(s: Rover, p: Pad, now: nat)
    requires Inv(s)
    ensures Inv(ProcessPad(s, p, now))
  {
    var e := PadEvent(p, WordOf(p));
    DispatchKeeps(s, e, now);
    ThrottleKeeps(Dispatch(s, e, now));
  }

  lemma HandleKeeps(s: Rover, m: Message, now: nat)
    requires Inv(s)
    ensures Inv(HandleMessage(s, m, now))
  {
    if m.Ps5? {
      PadKeeps(s, Received(m.frame), now);
    } else if m != StopMain {
      DispatchKeeps(s, Signal(m), now);
      ThrottleKeeps(Dispatch(s, Signal(m), now));
    }
  }

  lemma WakeKeeps(s: Rover)
    requires Inv(s) && s.rec.pc.Delaying?
    ensures Inv(WakeStep(s))
  {
    if s.rec.replaying {
      PulseIsSafe(s.rec.route[s.rec.cursor].steering);
    }
  }

  lemma StepKeeps(s: Rover, a: Action)
    requires Inv(s) && Can(s, a)
    ensures Inv(Step(s, a))
  {
    match a
    case Main(now) =>
      var taken := s.(queue := s.queue[1..]);
      HandleKeeps(taken, s.queue[0], now);
    case ReplayWake => WakeKeeps(s);
    case ArmTick => A.StepIsSafe(s.arm, A.DoTick);
    case ArmReceive =>
    case ReplayTop =>
    case Arrive(_) =>
  }

  lemma InitialInv(curve: ThrottleMap)
    ensures Inv(Initial(curve))
  {
    PulseIsSafe(0);
  }

  /** In every interleaving: recording excludes replaying, the arm is enabled exactly in arm mode,
      the motors show the commanded throttle, every steering and arm pulse is in 500..2500. */
  lemma {:induction false} RunKeeps(s: Rover, run: seq<Action>)
    requires Inv(s) && IsRun(s, run)
    ensures Inv(After(s, run))
    ensures var a := After(s, run).arm.angles;
      SafePulse(A.Pulse(a.base)) && SafePulse(A.Pulse(a.boom)) && SafePulse(A.Pulse(a.grapple)) && SafePulse(A.Pulse(a.forearm))
    decreases run
  {
    if run == [] {
      var a := s.arm.angles;
      A.SafeAngle(a.base);
      A.SafeAngle(a.boom);
      A.SafeAngle(a.grapple);
      A.SafeAngle(a.forearm);
    } else {
      StepKeeps(s, run[0]);
      RunKeeps(Step(s, run[0]), run[1..]);
    }
  }

  // ---- the throttle curve ----

  lemma DrivingReplayCurve(s: Rover, e: Event)
    requires e.PadEvent?
    ensures DrivingReplay(s, e).curve == s.curve
  {
  }

  lemma DrivingCurve(s: Rover, e: Event, now: nat)
    ensures WhenDriving(s, e, now).curve == s.curve
  {
    if e.PadEvent? {
      DrivingReplayCurve(s, e);
      DrivingReplayCurve(ToggleRecord(s, now), e);
    }
  }

  lemma DispatchCurve(s: Rover, e: Event, now: nat)
    ensures Dispatch(s, e, now).curve == s.curve
  {
    match s.mode
    case Driving => DrivingCurve(s, e, now);
    case Recording =>
    case Replaying =>
    case Error =>
    case Autonomous =>
    case ArmMode =>
    case Disconnected =>
  }

  lemma HandleCurve(s: Rover, m: Message, now: nat)
    ensures HandleMessage(s, m, now).curve == s.curve
  {
    if m.Ps5? {
      DispatchCurve(s, PadEvent(Received(m.frame), WordOf(Received(m.frame))), now);
    } else {
      DispatchCurve(s, Signal(m), now);
    }
  }

  /** No step changes the throttle curve. */
  lemma StepCurve(s: Rover, a: Action)
    requires Can(s, a)
    ensures Step(s, a).curve == s.curve
  {
    if a.Main? { HandleCurve(s.(queue := s.queue[1..]), s.queue[0], a.now); }
  }
}
