/** The mode machine as a table: the next mode, the motors, the recorder's flags and the locks for
    every message, in terms of the message's own fields and of what was pressed before. */
module RoverTransitions {
  import opened Common
  import opened PadData
  import opened Messages
  import opened Servo
  import opened Rover
  import opened RoverInvariants
  import opened RoverReplay

  // ---- what a packet shows that the one before did not ----

  predicate LosesController(s: Rover, p: Pad) { BitConnected in s.word && !p.connected }

  predicate NewCircle(s: Rover, p: Pad) { BitRecord !in s.word && Circle in p.buttons }

  predicate NewTriangle(s: Rover, p: Pad) { BitReplay !in s.word && Triangle in p.buttons }

  predicate NewCross(s: Rover, p: Pad) { BitCross !in s.word && Cross in p.buttons }

  predicate NewSquare(s: Rover, p: Pad) { BitAuto !in s.word && Square in p.buttons }

  lemma EdgesShown(s: Rover, p: Pad)
    ensures Was(s.word, WordOf(p), BitConnected) <==> LosesController(s, p)
    ensures IsNow(s.word, WordOf(p), BitRecord) <==> NewCircle(s, p)
    ensures IsNow(s.word, WordOf(p), BitReplay) <==> NewTriangle(s, p)
    ensures IsNow(s.word, WordOf(p), BitCross) <==> NewCross(s, p)
    ensures IsNow(s.word, WordOf(p), BitAuto) <==> NewSquare(s, p)
  {
  }

  // ---- the next mode ----

  /** In driving mode: circle starts a recording if the recorder is idle. */
  predicate StartsRecorder(s: Rover, p: Pad) {
    NewCircle(s, p) && !s.rec.recording && !s.rec.replaying
  }

  /** In driving mode: triangle starts a replay of a route, unless a recording or a replay is on;
      circle in the same packet switches off a recording that outlived its mode. */
  predicate StartsReplay(s: Rover, p: Pad) {
    NewTriangle(s, p) && !s.rec.replaying && s.rec.routeIndex > 0 && (!s.rec.recording || NewCircle(s, p))
  }

  function NextMode(s: Rover, p: Pad): Mode {
    match s.mode
    case Disconnected => Driving
    case Error => if NewCross(s, p) then Driving else Error
    case Autonomous => if NewSquare(s, p) then Driving else Autonomous
    case ArmMode =>
      if LosesController(s, p) then Disconnected else if NewCross(s, p) then Driving else ArmMode
    case Replaying =>
      if LosesController(s, p) then Disconnected
      else if NewTriangle(s, p) && (s.rec.replaying || s.rec.routeIndex == 0) then Driving
      else Replaying
    case Recording =>
      if LosesController(s, p) then Disconnected
      else if NewCircle(s, p) || s.rec.routeIndex == 300 then Driving
      else Recording
    case Driving =>
      if LosesController(s, p) then Disconnected
      else if StartsRecorder(s, p) then Recording
      else if StartsReplay(s, p) then Replaying
      else if NewCross(s, p) then ArmMode
      else if NewSquare(s, p) then Autonomous
      else Driving
  }

  function EventOf(p: Pad): Event { PadEvent(p, WordOf(p)) }

  lemma LostDriving(s: Rover, p: Pad, now: nat)
    requires s.mode == Driving && LosesController(s, p)
    ensures WhenDriving(s, EventOf(p), now) == s.(mode := Disconnected)
  {
    EdgesShown(s, p);
  }

  lemma RecorderStarted(s: Rover, p: Pad, now: nat)
    requires s.mode == Driving && !LosesController(s, p) && StartsRecorder(s, p)
    ensures var t := WhenDriving(s, EventOf(p), now);
      t.rec.recording && !t.rec.replaying && t == s.(mode := Recording, rec := t.rec)
  {
    EdgesShown(s, p);
  }

  lemma ReplayStarted(s: Rover, p: Pad, now: nat)
    requires s.mode == Driving && !LosesController(s, p) && !StartsRecorder(s, p) && StartsReplay(s, p)
    ensures var t := WhenDriving(s, EventOf(p), now);
      !t.rec.recording && t.rec.replaying && t == s.(mode := Replaying, rec := t.rec, locked := true)
  {
    EdgesShown(s, p);
  }

  /** When neither recording nor replay starts, the recorder may still be switched off. */
  lemma DrivingOn(s: Rover, p: Pad, now: nat) returns (u: Rover)
    requires Inv(s) && s.mode == Driving && !LosesController(s, p) && !StartsRecorder(s, p) && !StartsReplay(s, p)
    ensures WhenDriving(s, EventOf(p), now) == DrivingRest(u, EventOf(p))
    ensures u == s.(rec := u.rec, queue := u.queue)
    ensures u.rec.recording == (s.rec.recording && !NewCircle(s, p))
    ensures u.rec.replaying == (s.rec.replaying && !NewTriangle(s, p))
  {
    EdgesShown(s, p);
    u := if NewCircle(s, p) then ToggleRecord(s, now) else s;
    u := if NewTriangle(s, p) then ToggleReplay(u) else u;
  }

  /** The last part of the driving handler: arm mode, autonomous mode, or live driving. */
  lemma DrivingEnds(s: Rover, p: Pad)
    requires s.mode == Driving
    ensures var t := DrivingRest(s, EventOf(p));
      && t.rec == s.rec && t.curve == s.curve
      && t.mode == (if NewCross(s, p) then ArmMode else if NewSquare(s, p) then Autonomous else Driving)
      && t.locked == (s.locked || t.mode != Driving)
      && (t.mode == ArmMode ==> t.throttle == 0)
      && (t.mode == Autonomous ==> t.throttle == 30 && t.direction == 0)
      && (t.mode != Driving ==> t.steeringPulse == s.steeringPulse)
      && (t.mode == Driving ==>
            && t.throttle == (if p.r2 != 0 then p.r2 else p.l2)
            && t.direction == (if p.r2 == 0 && p.l2 != 0 then 0 else 1)
            && t.steeringPulse == AngleToCompare(p.lx / 4) && t.metrics.steering == p.lx / 4)
  {
    EdgesShown(s, p);
  }

  lemma DrivingNext(s: Rover, p: Pad, now: nat)
    requires Inv(s) && s.mode == Driving
    ensures WhenDriving(s, EventOf(p), now).mode == NextMode(s, p)
  {
    if LosesController(s, p) {
      LostDriving(s, p, now);
    } else if StartsRecorder(s, p) {
      RecorderStarted(s, p, now);
    } else if StartsReplay(s, p) {
      ReplayStarted(s, p, now);
    } else {
      var u := DrivingOn(s, p, now);
      DrivingEnds(u, p);
    }
  }

  lemma OtherNext(s: Rover, p: Pad, now: nat)
    requires Inv(s) && s.mode != Driving
    ensures ProcessPad(s, p, now).mode == NextMode(s, p)
  {
    EdgesShown(s, p);
  }

  /** What a packet makes of a driving rover, up to the motors. */
  lemma DrivingPad(s: Rover, p: Pad, now: nat)
    requires s.mode == Driving
    ensures var t, u := ProcessPad(s, p, now), WhenDriving(s, EventOf(p), now);
      && t.mode == u.mode && t.rec == u.rec && t.locked == u.locked && t.steeringPulse == u.steeringPulse
      && t.metrics == Metrics(u.throttle, if u.direction == 1 then 1 else -1, u.curve[u.throttle], u.metrics.steering)
      && t.duty == if u.direction == 1 then Duty(u.curve[u.throttle] / 2, 0) else Duty(0, u.curve[u.throttle] / 2)
  {
  }

  /** The mode after a packet, in every mode, exactly. */
  lemma PacketMode(s: Rover, p: Pad, now: nat)
    requires Inv(s)
    ensures ProcessPad(s, p, now).mode == NextMode(s, p)
  {
    if s.mode == Driving {
      DrivingPad(s, p, now);
      DrivingNext(s, p, now);
    } else { OtherNext(s, p, now); }
  }

  // ---- the recorder's flags ----

  function NextRecording(s: Rover, p: Pad): bool {
    if LosesController(s, p) then s.rec.recording
    else match s.mode
      case Driving => if NewCircle(s, p) then StartsRecorder(s, p) else s.rec.recording
      case Recording => !NewCircle(s, p) && s.rec.routeIndex < 300
      case _ => s.rec.recording
  }

  function NextReplaying(s: Rover, p: Pad): bool {
    if LosesController(s, p) then s.rec.replaying
    else match s.mode
      case Driving =>
        if NewTriangle(s, p) && !StartsRecorder(s, p) then StartsReplay(s, p) else s.rec.replaying
      case Replaying => if NewTriangle(s, p) then !s.rec.replaying && s.rec.routeIndex > 0 else s.rec.replaying
      case _ => s.rec.replaying
  }

  lemma DrivingFlags(s: Rover, p: Pad, now: nat)
    requires Inv(s) && s.mode == Driving
    ensures var r := ProcessPad(s, p, now).rec;
      r.recording == NextRecording(s, p) && r.replaying == NextReplaying(s, p)
  {
    DrivingPad(s, p, now);
    if LosesController(s, p) {
      LostDriving(s, p, now);
    } else if StartsRecorder(s, p) {
      RecorderStarted(s, p, now);
    } else if StartsReplay(s, p) {
      ReplayStarted(s, p, now);
    } else {
      var u := DrivingOn(s, p, now);
      DrivingEnds(u, p);
    }
  }

  lemma OtherFlags(s: Rover, p: Pad, now: nat)
    requires Inv(s) && s.mode != Driving
    ensures var r := ProcessPad(s, p, now).rec;
      r.recording == NextRecording(s, p) && r.replaying == NextReplaying(s, p)
  {
    EdgesShown(s, p);
  }

  /** The recorder's flags after a packet, in every mode, exactly. */
  lemma PacketFlags(s: Rover, p: Pad, now: nat)
    requires Inv(s)
    ensures var r := ProcessPad(s, p, now).rec;
      r.recording == NextRecording(s, p) && r.replaying == NextReplaying(s, p)
  {
    if s.mode == Driving { DrivingFlags(s, p, now); } else { OtherFlags(s, p, now); }
  }

  // ---- the locks and the motors ----

  /** The trigger locks after a change of mode, or none. */
  function NextLocked(s: Rover, mode: Mode): bool {
    if mode == s.mode then s.locked
    else if mode in {ArmMode, Replaying, Autonomous, Error} then true
    else if s.mode in {ArmMode, Replaying, Error} then false
    else s.locked
  }

  lemma DrivingLocks(s: Rover, p: Pad, now: nat)
    requires Inv(s) && s.mode == Driving
    ensures ProcessPad(s, p, now).locked == NextLocked(s, NextMode(s, p))
  {
    DrivingPad(s, p, now);
    if LosesController(s, p) {
      LostDriving(s, p, now);
    } else if StartsRecorder(s, p) {
      RecorderStarted(s, p, now);
    } else if StartsReplay(s, p) {
      ReplayStarted(s, p, now);
    } else {
      var u := DrivingOn(s, p, now);
      DrivingEnds(u, p);
    }
  }

  lemma OtherLocks(s: Rover, p: Pad, now: nat)
    requires Inv(s) && s.mode != Driving
    ensures ProcessPad(s, p, now).locked == NextLocked(s, NextMode(s, p))
  {
    EdgesShown(s, p);
  }

  lemma PacketLocks(s: Rover, p: Pad, now: nat)
    requires Inv(s)
    ensures ProcessPad(s, p, now).locked == NextLocked(s, NextMode(s, p))
  {
    if s.mode == Driving { DrivingLocks(s, p, now); } else { OtherLocks(s, p, now); }
  }

  /** The packet drives: nothing it shows leads out of driving or recording mode before the sticks
      and triggers are read. */
  predicate IsDriven(s: Rover, p: Pad) {
    !LosesController(s, p)
    && match s.mode
       case Driving =>
         !StartsRecorder(s, p) && !StartsReplay(s, p) && !NewCross(s, p) && !NewSquare(s, p)
       case Recording => !NewCircle(s, p)
       case _ => false
  }

  /** The duties of live driving: the right trigger wins, and drives forward; the left one backs. */
  function LiveDuty(curve: seq<u16>, l2: u8, r2: u8): Duty
    requires |curve| == 256
  {
    if r2 != 0 then Duty(curve[r2] / 2, 0) else Duty(0, curve[l2] / 2)
  }

  lemma DrivingLive(s: Rover, p: Pad, now: nat)
    requires Inv(s) && s.mode == Driving && IsDriven(s, p)
    ensures var t := ProcessPad(s, p, now);
      && t.duty == LiveDuty(s.curve, p.l2, p.r2) && t.steeringPulse == AngleToCompare(p.lx / 4)
      && t.metrics.steering == p.lx / 4
      && t.metrics.throttle == (if p.r2 != 0 then p.r2 else p.l2)
      && t.metrics.direction == (if p.r2 == 0 && p.l2 != 0 then -1 else 1)
  {
    DrivingPad(s, p, now);
    var u := DrivingOn(s, p, now);
    DrivingEnds(u, p);
  }

  lemma RecordingLive(s: Rover, p: Pad, now: nat)
    requires Inv(s) && s.mode == Recording && IsDriven(s, p)
    ensures var t := ProcessPad(s, p, now);
      && t.duty == LiveDuty(s.curve, p.l2, p.r2) && t.steeringPulse == AngleToCompare(p.lx / 4)
      && t.metrics.steering == p.lx / 4
      && t.metrics.throttle == (if p.r2 != 0 then p.r2 else p.l2)
      && t.metrics.direction == (if p.r2 == 0 && p.l2 != 0 then -1 else 1)
  {
    EdgesShown(s, p);
  }

  /** Live driving, in driving and in recording mode, in the packet's own fields. */
  lemma LiveDriving(s: Rover, p: Pad, now: nat)
    requires Inv(s) && IsDriven(s, p)
    ensures var t := ProcessPad(s, p, now);
      && t.duty == (if p.r2 != 0 then Duty(s.curve[p.r2] / 2, 0) else Duty(0, s.curve[p.l2] / 2))
      && t.steeringPulse == AngleToCompare(p.lx / 4) && t.metrics.steering == p.lx / 4
      && t.metrics.throttle == (if p.r2 != 0 then p.r2 else p.l2)
      && t.metrics.direction == (if p.r2 == 0 && p.l2 != 0 then -1 else 1)
  {
    if s.mode == Driving { DrivingLive(s, p, now); } else { RecordingLive(s, p, now); }
  }

  /** The duties after a packet that does not drive: arm mode stops, autonomous mode backs at
      throttle 30, leaving it stops, and everything else leaves the motors as they are. */
  function OtherDuty(s: Rover, p: Pad): Duty {
    var mode := NextMode(s, p);
    if mode == s.mode then s.duty
    else if mode == ArmMode || s.mode == Autonomous then Duty(0, 0)
    else if mode == Autonomous then Duty(0, s.curve[30] / 2)
    else s.duty
  }

  lemma DrivingOther(s: Rover, p: Pad, now: nat)
    requires Inv(s) && s.mode == Driving && !IsDriven(s, p)
    ensures ProcessPad(s, p, now).duty == OtherDuty(s, p) && ProcessPad(s, p, now).steeringPulse == s.steeringPulse
  {
    DrivingPad(s, p, now);
    if LosesController(s, p) {
      LostDriving(s, p, now);
    } else if StartsRecorder(s, p) {
      RecorderStarted(s, p, now);
    } else if StartsReplay(s, p) {
      ReplayStarted(s, p, now);
    } else {
      var u := DrivingOn(s, p, now);
      DrivingEnds(u, p);
    }
  }

  lemma OtherOther(s: Rover, p: Pad, now: nat)
    requires Inv(s) && s.mode != Driving && !IsDriven(s, p)
    ensures ProcessPad(s, p, now).duty == OtherDuty(s, p) && ProcessPad(s, p, now).steeringPulse == s.steeringPulse
  {
    EdgesShown(s, p);
  }

  /** Every other packet: the motors as stated, the steering as it was. */
  lemma PacketMotors(s: Rover, p: Pad, now: nat)
    requires Inv(s) && !IsDriven(s, p)
    ensures ProcessPad(s, p, now).duty == OtherDuty(s, p) && ProcessPad(s, p, now).steeringPulse == s.steeringPulse
  {
    if s.mode == Driving { DrivingOther(s, p, now); } else { OtherOther(s, p, now); }
  }

  // ---- the other messages ----

  predicate Alarm(m: Message) { m == Collision || m == ObstructionDetected }

  function SignalMode(s: Rover, m: Message): Mode {
    if s.mode == Driving && Alarm(m) then Error
    else if s.mode == Replaying && m == ReplayEnd && !s.rec.replaying then Driving
    else s.mode
  }

  /** An alarm stops a driving rover and locks its triggers; the end of a replay that is over leads
      back to driving; nothing else but a packet changes the mode, the motors or the locks. */
  lemma SignalEffect(s: Rover, m: Message, now: nat)
    requires Inv(s) && !m.Ps5?
    ensures var t := HandleMessage(s, m, now);
      && t.mode == SignalMode(s, m) && t.locked == NextLocked(s, SignalMode(s, m))
      && t.duty == (if s.mode == Driving && Alarm(m) then Duty(0, 0) else s.duty)
      && t.steeringPulse == s.steeringPulse && t.rec == s.rec && t.arm == s.arm && t.queue == s.queue
      && t.word == s.word && t.curve == s.curve && t.stopped == (s.stopped || m == StopMain)
  {
  }

  /** A frame that is not the latest is dropped. */
  lemma StaleFrame(s: Rover, f: Frame, now: nat)
    requires !Received(f).latest
    ensures HandleMessage(s, Ps5(f), now) == s
  {
  }

  // ---- an alarm, over a run ----

  lemma DrivingReplayQueue(s: Rover, e: Event)
    requires e.PadEvent?
    ensures s.queue <= DrivingReplay(s, e).queue
  {
  }

  lemma DrivingQueue(s: Rover, e: Event, now: nat)
    ensures s.queue <= WhenDriving(s, e, now).queue
  {
    if e.PadEvent? {
      DrivingReplayQueue(s, e);
      DrivingReplayQueue(ToggleRecord(s, now), e);
    }
  }

  lemma DispatchQueue(s: Rover, e: Event, now: nat)
    ensures s.queue <= Dispatch(s, e, now).queue
  {
    match s.mode
    case Driving => DrivingQueue(s, e, now);
    case Recording =>
    case Replaying =>
    case Error =>
    case Autonomous =>
    case ArmMode =>
    case Disconnected =>
  }

  /** Handling a message takes nothing from the queue. */
  lemma QueueGrows(s: Rover, m: Message, now: nat)
    ensures s.queue <= HandleMessage(s, m, now).queue
  {
    if m.Ps5? {
      DispatchQueue(s, PadEvent(Received(m.frame), WordOf(Received(m.frame))), now);
    } else {
      DispatchQueue(s, Signal(m), now);
    }
  }

  /** A message for the main task moves up by one place with each main step, and is handled in turn. */
  lemma MainTakes(s: Rover, a: Action, k: nat, m: Message)
    requires Can(s, a) && k < |s.queue| && s.queue[k] == m
    ensures a.Main? && k > 0 ==> k - 1 < |Step(s, a).queue| && Step(s, a).queue[k - 1] == m
    ensures !a.Main? ==> k < |Step(s, a).queue| && Step(s, a).queue[k] == m
  {
    if a.Main? { QueueGrows(s.(queue := s.queue[1..]), s.queue[0], a.now); }
  }

  /** Nothing handled in the run leads out of error mode. */
  predicate NotReleased(s: Rover, run: seq<Action>)
    requires IsRun(s, run)
    decreases run
  {
    run != [] ==>
      (forall p :: p in PacketOf(s, run[0]) ==> !NewCross(s, p.pad)) && NotReleased(Step(s, run[0]), run[1..])
  }

  predicate Halted(s: Rover) {
    s.mode == Error && s.duty == Duty(0, 0) && s.locked && !s.rec.replaying && Inv(s)
  }

  lemma HaltedStep(s: Rover, a: Action)
    requires Halted(s) && Can(s, a) && forall p :: p in PacketOf(s, a) ==> !NewCross(s, p.pad)
    ensures Halted(Step(s, a))
  {
    StepKeeps(s, a);
    if a.Main? {
      var taken, m := s.(queue := s.queue[1..]), s.queue[0];
      if PacketOf(s, a) != [] {
        var p := PacketOf(s, a)[0];
        assert p in PacketOf(s, a);
        StepOnPacket(s, a);
        PacketMode(taken, p.pad, p.now);
        PacketMotors(taken, p.pad, p.now);
        PacketLocks(taken, p.pad, p.now);
        PacketFlags(taken, p.pad, p.now);
      } else if !m.Ps5? {
        SignalEffect(taken, m, a.now);
      }
    }
  }

  /** A rover that an alarm has stopped stands still, with its triggers locked, until cross is
      pressed, whatever else arrives and whatever the other tasks do. */
  lemma {:induction false} HaltedUntilCross(s: Rover, run: seq<Action>)
    requires Halted(s) && IsRun(s, run) && NotReleased(s, run)
    ensures Halted(After(s, run))
    decreases run
  {
    if run != [] {
      HaltedStep(s, run[0]);
      HaltedUntilCross(Step(s, run[0]), run[1..]);
    }
  }

  /** The number of main steps in a run. */
  function MainCount(run: seq<Action>): nat
    decreases run
  {
    if run == [] then 0 else (if run[0].Main? then 1 else 0) + MainCount(run[1..])
  }

  /** Handling an alarm stops a driving rover. */
  predicate AlarmHandled(t: Rover, u: Rover) {
    t.mode == Driving ==>
      u.mode == Error && u.duty == Duty(0, 0) && u.locked && (!t.rec.replaying ==> Halted(u))
  }

  lemma AlarmStep(t: Rover, a: Action)
    requires Inv(t) && Can(t, a) && a.Main? && Alarm(t.queue[0])
    ensures AlarmHandled(t, Step(t, a))
  {
    SignalEffect(t.(queue := t.queue[1..]), t.queue[0], a.now);
    StepKeeps(t, a);
  }

  /** An alarm at place k of the queue is handled by the main step number k + 1 of every run that
      has so many; if the rover drives then, that step stops it, and it stays so until cross is
      pressed unless a replay was left over. */
  lemma {:induction false} AlarmStops(s: Rover, run: seq<Action>, k: nat, m: Message) returns (j: nat)
    requires Inv(s) && IsRun(s, run) && k < |s.queue| && s.queue[k] == m && Alarm(m) && k < MainCount(run)
    ensures j < |run| && IsRun(s, run[..j]) && Can(After(s, run[..j]), run[j]) && run[j].Main?
    ensures MainCount(run[..j]) == k
    ensures var t := After(s, run[..j]); t.queue[0] == m && AlarmHandled(t, Step(t, run[j]))
    decreases run
  {
    var a, t := run[0], Step(s, run[0]);
    if a.Main? && k == 0 {
      j := 0;
      AlarmStep(s, a);
    } else {
      MainTakes(s, a, k, m);
      StepKeeps(s, a);
      var i := AlarmStops(t, run[1..], if a.Main? then k - 1 else k, m);
      j := i + 1;
      assert run[..j][1..] == run[1..][..i];
    }
  }

  // ---- the start ----

  /** What the firmware starts from. */
  lemma InitialState(curve: seq<u16>)
    requires |curve| == 256 && curve[0] == 0
    ensures var s := Initial(curve);
      && s.mode == Disconnected && s.duty == Duty(0, 0) && s.steeringPulse == 1500 && s.queue == [] && !s.stopped
      && !s.rec.recording && !s.rec.replaying && s.rec.routeIndex == 0 && !s.arm.enabled
  {
  }
}
