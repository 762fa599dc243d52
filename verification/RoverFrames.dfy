/** What a held controller, a damaged frame and a lost controller do to the mode machine. */
module RoverFrames {
  import opened Common
  import opened PadData
  import opened Messages
  import opened Servo
  import opened ThrottleTable
  import opened Rover
  import opened RoverInvariants
  import opened RoverProtocol
  import opened RoverReplay
  import R = RouteRecorder
  import A = Arm

  // ---- presses ----

  /** The packet shows a connected controller on which b is newly pressed. */
  predicate Presses(s: Rover, p: Packet, b: Bit) {
    p.pad.connected && IsNow(s.word, WordOf(p.pad), b)
  }

  function Handle(s: Rover, p: Packet): Rover { ProcessPad(s, p.pad, p.now) }

  lemma StartPress(s: Rover, p: Packet)
    requires MotorsFollow(s) && s.mode == Driving && !s.rec.recording && !s.rec.replaying && Presses(s, p, BitRecord)
    ensures var t := Handle(s, p);
      && t.mode == Recording && t.rec == R.RecordStart(s.rec, p.now) && MotorsFollow(t)
      && t.curve == s.curve && t.word == WordOf(p.pad)
      && t.throttle == s.throttle && t.direction == s.direction && t.queue == s.queue && t.stopped == s.stopped
  {
    assert BitConnected in WordOf(p.pad);
  }

  lemma StopPress(s: Rover, p: Packet)
    requires s.mode == Recording && s.rec.recording && Presses(s, p, BitRecord)
    ensures var t := Handle(s, p);
      && t.mode == Driving && t.rec == R.RecordStop(s.rec) && t.curve == s.curve && t.word == WordOf(p.pad)
      && t.queue == s.queue && t.stopped == s.stopped
  {
    assert BitConnected in WordOf(p.pad);
  }

  lemma PlayPress(s: Rover, p: Packet)
    requires s.mode == Driving && !s.rec.recording && !s.rec.replaying && s.rec.routeIndex > 0
    requires Presses(s, p, BitReplay) && !Presses(s, p, BitRecord)
    ensures var t := Handle(s, p);
      && t.mode == Replaying && t.rec == R.ReplayStart(s.rec) && t.curve == s.curve && t.queue == s.queue
      && t.stopped == s.stopped
  {
    assert BitConnected in WordOf(p.pad);
  }

  /** The packet only drives: none of the buttons that leave driving mode is newly pressed. */
  predicate OnlyDrives(word: set<Bit>, p: Pad) {
    p.connected && forall b :: b in {BitRecord, BitReplay, BitCross, BitAuto} ==> !IsNow(word, WordOf(p), b)
  }

  lemma DrivingPacket(s: Rover, p: Packet)
    requires s.mode == Driving && OnlyDrives(s.word, p.pad)
    ensures var t := Handle(s, p);
      && t.mode == Driving && t.rec == s.rec && t.curve == s.curve && t.word == WordOf(p.pad)
      && t.queue == s.queue && t.stopped == s.stopped
  {
    assert BitConnected in WordOf(p.pad);
    assert {BitRecord, BitReplay, BitCross, BitAuto} == {BitRecord} + {BitReplay, BitCross, BitAuto};
  }

  // ---- held buttons ----

  /** The last packet was p, from a connected controller. */
  predicate Settled(s: Rover, p: Pad) {
    s.word == WordOf(p) && p.connected && s.mode != Disconnected
  }

  lemma DrivingStaysConnected(s: Rover, e: Event, now: nat)
    requires s.mode == Driving && e.PadEvent? && BitConnected in e.word
    ensures WhenDriving(s, e, now).mode != Disconnected
  {
  }

  lemma StaysConnected(s: Rover, e: Event, now: nat)
    requires e.PadEvent? && BitConnected in e.word
    ensures Dispatch(s, e, now).mode != Disconnected
  {
    match s.mode
    case Driving => DrivingStaysConnected(s, e, now);
    case Recording =>
    case Replaying =>
    case Error =>
    case Autonomous =>
    case ArmMode =>
    case Disconnected =>
  }

  lemma PadSettles(s: Rover, p: Pad, now: nat)
    requires p.connected
    ensures Settled(ProcessPad(s, p, now), p)
  {
    assert BitConnected in WordOf(p);
    StaysConnected(s, PadEvent(p, WordOf(p)), now);
  }

  /** The only mode change a repeated packet can make. */
  predicate BufferFull(s: Rover) {
    s.mode == Recording && s.rec.routeIndex == R.SAMPLE_COUNT
  }

  lemma HeldPacket(s: Rover, p: Pad, now: nat)
    requires Settled(s, p) && Kept(s)
    ensures ProcessPad(s, p, now).mode == if BufferFull(s) then Driving else s.mode
    ensures Settled(ProcessPad(s, p, now), p)
  {
    PadSettles(s, p, now);
    assert forall b :: !IsNow(s.word, WordOf(p), b) && !Was(s.word, WordOf(p), b);
  }

  /** Every packet handled in the run is p. */
  predicate HeldRun(s: Rover, run: seq<Action>, p: Pad)
    requires IsRun(s, run)
    decreases run
  {
    run != [] ==> (forall q :: q in PacketOf(s, run[0]) ==> q.pad == p) && HeldRun(Step(s, run[0]), run[1..], p)
  }

  /** The number of steps in which a packet changed the mode. */
  function PacketChanges(s: Rover, run: seq<Action>): nat
    requires IsRun(s, run)
    decreases run
  {
    if run == [] then 0
    else
      var t := Step(s, run[0]);
      (if PacketOf(s, run[0]) != [] && t.mode != s.mode then 1 else 0) + PacketChanges(t, run[1..])
  }

  lemma SignalSettled(s: Rover, a: Action, p: Pad)
    requires Settled(s, p) && Can(s, a) && PacketOf(s, a) == []
    ensures Settled(Step(s, a), p) && (Step(s, a).mode == Recording ==> s.mode == Recording)
  {
  }

  lemma HeldStep(s: Rover, a: Action, p: Pad)
    requires Settled(s, p) && Kept(s) && Can(s, a) && forall q :: q in PacketOf(s, a) ==> q.pad == p
    ensures Settled(Step(s, a), p) && (Step(s, a).mode == Recording ==> s.mode == Recording)
    ensures PacketOf(s, a) != [] ==> Step(s, a).mode == if BufferFull(s) then Driving else s.mode
  {
    if PacketOf(s, a) == [] {
      SignalSettled(s, a, p);
    } else {
      var q := PacketOf(s, a)[0];
      assert q in PacketOf(s, a);
      StepOnPacket(s, a);
      HeldPacket(s.(queue := s.queue[1..]), p, q.now);
    }
  }

  /** In every run in which the last packet is repeated, any number of times, packets change the
      mode at most once, and only from recording to driving, because the buffer is full. */
  lemma {:induction false} HeldButtons(s: Rover, run: seq<Action>, p: Pad)
    requires Settled(s, p) && Inv(s) && IsRun(s, run) && HeldRun(s, run, p)
    ensures Settled(After(s, run), p)
    ensures PacketChanges(s, run) <= if s.mode == Recording then 1 else 0
    decreases run
  {
    if run != [] {
      HeldStep(s, run[0], p);
      StepKeeps(s, run[0]);
      HeldButtons(Step(s, run[0]), run[1..], p);
    }
  }

  // ---- damaged frames ----

  const RELEASED := {BitConnected}

  lemma ReleasedMode(s: Rover, p: Pad, now: nat)
    requires WordOf(p) == RELEASED && Inv(s)
    ensures ProcessPad(s, p, now).mode == if s.mode == Disconnected || BufferFull(s) then Driving else s.mode
  {
  }

  lemma ReleasedMotion(s: Rover, p: Pad, now: nat)
    requires WordOf(p) == RELEASED && p.lx == 0 && p.l2 == 0 && p.r2 == 0 && Inv(s)
    ensures var t := ProcessPad(s, p, now);
      && (s.mode in {Driving, Recording} ==>
            t.throttle == 0 && t.duty == Duty(0, 0) && t.steeringPulse == AngleToCompare(0))
      && (s.mode !in {Driving, Recording} ==> t.duty == s.duty && t.steeringPulse == s.steeringPulse)
  {
  }

  lemma ReleasedRest(s: Rover, p: Pad, now: nat)
    requires WordOf(p) == RELEASED && Inv(s)
    ensures var t := ProcessPad(s, p, now);
      && (s.mode != Recording ==> t.rec == s.rec)
      && t.arm == (if s.mode == ArmMode then A.ArmMove(s.arm, p.lx, p.ly, p.rx, p.ry) else s.arm)
      && t.word == RELEASED && t.locked == s.locked && t.queue == s.queue
  {
  }

  /** A damaged frame is read as a connected controller with everything released: exactly what it
      does to the mode, the motors, the steering, the recorder's flags and the arm. */
  lemma RejectedFrame(s: Rover, f: Frame, now: nat)
    requires !Accepted(f) && Inv(s)
    ensures var t := HandleMessage(s, Ps5(f), now);
      && t.mode == (if s.mode == Disconnected || BufferFull(s) then Driving else s.mode)
      && (s.mode in {Driving, Recording} ==>
            t.throttle == 0 && t.duty == Duty(0, 0) && t.steeringPulse == AngleToCompare(0))
      && (s.mode !in {Driving, Recording} ==> t.duty == s.duty && t.steeringPulse == s.steeringPulse)
      && (s.mode != Recording ==> t.rec == s.rec)
      && t.arm == (if s.mode == ArmMode then A.ArmMove(s.arm, 0, 0, 0, 0) else s.arm)
      && t.word == RELEASED && t.locked == s.locked && t.queue == s.queue
  {
    var p := Received(f);
    assert WordOf(p) == RELEASED;
    ReleasedMode(s, p, now);
    ReleasedMotion(s, p, now);
    ReleasedRest(s, p, now);
  }

  /** A held button therefore counts as newly pressed after a damaged frame. */
  lemma DamageRearms(s: Rover, p: Packet, f: Frame, now: nat, b: Bit)
    requires !Accepted(f) && Inv(s) && Settled(s, p.pad) && b in s.word && b != BitConnected
    ensures Presses(HandleMessage(s, Ps5(f), now), p, b)
  {
    RejectedFrame(s, f, now);
  }

  // ---- lost controllers ----

  lemma DisconnectPacket(s: Rover, p: Pad, now: nat)
    requires !p.connected && BitConnected in s.word && s.mode in {Driving, Recording, Replaying, ArmMode} && MotorsFollow(s)
    ensures var t := ProcessPad(s, p, now);
      && t.mode == Disconnected && t.rec == s.rec && t.word == WordOf(p)
      && t.throttle == s.throttle && t.duty == s.duty && t.steeringPulse == s.steeringPulse && t.curve == s.curve
      && MotorsFollow(t)
  {
    assert BitConnected !in WordOf(p);
  }

  lemma ReconnectPacket(s: Rover, p: Pad, now: nat)
    requires s.mode == Disconnected && MotorsFollow(s)
    ensures var t := ProcessPad(s, p, now);
      && t.mode == Driving && t.rec == s.rec && t.word == WordOf(p)
      && t.throttle == s.throttle && t.duty == s.duty && t.steeringPulse == s.steeringPulse && t.curve == s.curve
      && MotorsFollow(t)
  {
  }

  lemma ReceivedDisconnect(f: Frame)
    requires !Received(f).connected
    ensures Received(f) == NeutralPad(true, false) && WordOf(Received(f)) == {}
  {
  }

  /** The mode after the packet of a lost controller: autonomous and error mode do not notice it. */
  function LossMode(m: Mode): Mode {
    if m in {Autonomous, Error} then m else Disconnected
  }

  /** In a mode without a controller, with this duty on the motors and this steering. */
  predicate RunsOn(s: Rover, mode: Mode, duty: Duty, pulse: u32) {
    && mode in {Disconnected, Autonomous, Error} && s.mode == mode && s.word == {}
    && s.duty == duty && s.steeringPulse == pulse && MotorsFollow(s)
  }

  /** In every mode the packet of a lost controller leaves motors, steering and recorder alone. */
  lemma LossPacket(s: Rover, now: nat)
    requires MotorsFollow(s) && s.mode != Disconnected && BitConnected in s.word
    ensures var t := ProcessPad(s, NeutralPad(true, false), now);
      RunsOn(t, LossMode(s.mode), s.duty, s.steeringPulse) && t.rec == s.rec && t.curve == s.curve
  {
    var p := NeutralPad(true, false);
    assert WordOf(p) == {};
  }

  predicate NoPackets(s: Rover, run: seq<Action>)
    requires IsRun(s, run)
    decreases run
  {
    run != [] ==> PacketOf(s, run[0]) == [] && NoPackets(Step(s, run[0]), run[1..])
  }

  /** No packet is handled in the run, and a replay, if one is on, issues no sample. */
  predicate Silent(s: Rover, run: seq<Action>)
    requires IsRun(s, run)
    decreases run
  {
    run != [] ==>
      PacketOf(s, run[0]) == [] && IssueBy(s, run[0]) == [] && Silent(Step(s, run[0]), run[1..])
  }

  lemma SilentStep(s: Rover, a: Action, mode: Mode, duty: Duty, pulse: u32)
    requires RunsOn(s, mode, duty, pulse) && Can(s, a) && PacketOf(s, a) == [] && IssueBy(s, a) == []
    ensures RunsOn(Step(s, a), mode, duty, pulse)
  {
  }

  /** Through silence the motors keep turning, for as long as the controller stays away. */
  lemma {:induction false} SilenceKeepsMotors(s: Rover, run: seq<Action>, mode: Mode, duty: Duty, pulse: u32)
    requires RunsOn(s, mode, duty, pulse) && IsRun(s, run) && Silent(s, run)
    ensures RunsOn(After(s, run), mode, duty, pulse)
    decreases run
  {
    if run != [] {
      SilentStep(s, run[0], mode, duty, pulse);
      SilenceKeepsMotors(Step(s, run[0]), run[1..], mode, duty, pulse);
    }
  }

  lemma NoReplayStarts(s: Rover, a: Action, mode: Mode, duty: Duty, pulse: u32)
    requires RunsOn(s, mode, duty, pulse) && !s.rec.replaying && Can(s, a) && PacketOf(s, a) == []
    ensures !Step(s, a).rec.replaying && IssueBy(s, a) == []
  {
  }

  /** With no replay on, a run without packets is silent. */
  lemma {:induction false} NoReplayIsSilent(s: Rover, run: seq<Action>, mode: Mode, duty: Duty, pulse: u32)
    requires RunsOn(s, mode, duty, pulse) && !s.rec.replaying && IsRun(s, run) && NoPackets(s, run)
    ensures Silent(s, run) && !After(s, run).rec.replaying
    decreases run
  {
    if run != [] {
      NoReplayStarts(s, run[0], mode, duty, pulse);
      SilentStep(s, run[0], mode, duty, pulse);
      NoReplayIsSilent(Step(s, run[0]), run[1..], mode, duty, pulse);
    }
  }

  /** A controller lost in any mode: the motors run on through any silent run. */
  lemma LostController(s: Rover, f: Frame, now: nat, run: seq<Action>)
    requires Inv(s) && s.mode != Disconnected && BitConnected in s.word && !Received(f).connected
    requires IsRun(HandleMessage(s, Ps5(f), now), run) && Silent(HandleMessage(s, Ps5(f), now), run)
    ensures RunsOn(After(HandleMessage(s, Ps5(f), now), run), LossMode(s.mode), s.duty, s.steeringPulse)
  {
    ReceivedDisconnect(f);
    LossPacket(s, now);
    SilenceKeepsMotors(HandleMessage(s, Ps5(f), now), run, LossMode(s.mode), s.duty, s.steeringPulse);
  }

  /** With no replay on, every run without packets is such a run. */
  lemma LostWithoutReplay(s: Rover, f: Frame, now: nat, run: seq<Action>)
    requires Inv(s) && s.mode != Disconnected && BitConnected in s.word && !Received(f).connected
    requires !s.rec.replaying
    requires IsRun(HandleMessage(s, Ps5(f), now), run) && NoPackets(HandleMessage(s, Ps5(f), now), run)
    ensures RunsOn(After(HandleMessage(s, Ps5(f), now), run), LossMode(s.mode), s.duty, s.steeringPulse)
    ensures !After(HandleMessage(s, Ps5(f), now), run).rec.replaying
  {
    ReceivedDisconnect(f);
    LossPacket(s, now);
    NoReplayIsSilent(HandleMessage(s, Ps5(f), now), run, LossMode(s.mode), s.duty, s.steeringPulse);
    LostController(s, f, now, run);
  }

  /** A controller lost in autonomous mode: the rover goes on in reverse, through any run without
      packets, and its mode does not even change. */
  lemma AutonomousRunsOn(s: Rover, f: Frame, now: nat, run: seq<Action>)
    requires Inv(s) && Coupled(s) && s.mode == Autonomous && BitConnected in s.word && !Received(f).connected
    requires IsRun(HandleMessage(s, Ps5(f), now), run) && NoPackets(HandleMessage(s, Ps5(f), now), run)
    ensures var t := After(HandleMessage(s, Ps5(f), now), run);
      && t.mode == Autonomous && t.duty == Duty(0, s.curve[CRUISE] / 2)
      && (s.curve == ThrottleMapHigh() ==> t.duty.reverse > 0)
  {
    LostWithoutReplay(s, f, now, run);
    if s.curve == ThrottleMapHigh() { DutyInRange(CRUISE, 0); }
  }

  /** What the first packet of the controller that is back makes of the mode. */
  function BackMode(mode: Mode, back: Pad): Mode {
    if mode == Disconnected || (mode == Autonomous && Square in back.buttons) || (mode == Error && Cross in back.buttons)
    then Driving
    else mode
  }

  /** The first packet of a controller that is back leaves the motors as they are as well, unless
      it shows the button that leaves autonomous mode. */
  lemma BackPacket(t: Rover, mode: Mode, duty: Duty, pulse: u32, back: Pad, now: nat)
    requires RunsOn(t, mode, duty, pulse)
    ensures var u := ProcessPad(t, back, now);
      && u.mode == BackMode(mode, back) && u.steeringPulse == pulse && u.rec == t.rec
      && u.duty == if mode == Autonomous && Square in back.buttons then Duty(0, 0) else duty
  {
    assert BitAuto in WordOf(back) <==> Square in back.buttons;
    assert BitCross in WordOf(back) <==> Cross in back.buttons;
  }

  /** The packets of a controller that is lost, comes back, and presses a button. */
  predicate LostAndBack(s: Rover, lost: Packet, back: Packet, press: Packet, b: Bit) {
    && BitConnected in s.word && !lost.pad.connected
    && back.pad.connected && press.pad.connected && IsNow(WordOf(back.pad), WordOf(press.pad), b)
    && forall other :: other in {BitRecord, BitReplay} - {b} ==> !IsNow(WordOf(back.pad), WordOf(press.pad), other)
  }

  function AfterLoss(s: Rover, lost: Packet, back: Packet): Rover { Handle(Handle(s, lost), back) }

  lemma LossKeepsRecorder(s: Rover, lost: Packet, back: Packet)
    requires BitConnected in s.word && !lost.pad.connected && MotorsFollow(s) && s.mode in {Recording, Replaying}
    ensures var t := AfterLoss(s, lost, back);
      t.mode == Driving && t.rec == s.rec && t.word == WordOf(back.pad) && t.curve == s.curve
  {
    DisconnectPacket(s, lost.pad, lost.now);
    ReconnectPacket(Handle(s, lost), back.pad, back.now);
  }

  lemma ArmPress(s: Rover, p: Packet)
    requires s.mode == Driving && Presses(s, p, BitCross) && !Presses(s, p, BitRecord) && !Presses(s, p, BitReplay)
    ensures var t := Handle(s, p); t.mode == ArmMode && t.rec == s.rec && t.curve == s.curve && t.duty == Duty(0, 0)
  {
    assert BitConnected in WordOf(p.pad);
  }

  lemma WakeMoves(t: Rover, r: R.Recorder, curve: ThrottleMap)
    requires t.rec == r && t.curve == curve && r.replaying && r.pc.Delaying? && SafeRoute(r.route)
    ensures Can(t, ReplayWake) && Step(t, ReplayWake).mode == t.mode
    ensures Step(t, ReplayWake).duty == DutyFor(curve, r.route[r.cursor].throttle, r.route[r.cursor].direction)
  {
  }

  /** A controller lost during a replay: the replay goes on, and moves the rover in arm mode. */
  lemma ReplayMovesInArmMode(s: Rover, lost: Packet, back: Packet, press: Packet)
    requires Inv(s) && s.mode == Replaying && s.rec.replaying && s.rec.pc.Delaying?
    requires LostAndBack(s, lost, back, press, BitCross)
    ensures var t := Handle(AfterLoss(s, lost, back), press);
      && t.mode == ArmMode && t.duty == Duty(0, 0) && Can(t, ReplayWake)
      && var x := s.rec.route[s.rec.cursor];
         Step(t, ReplayWake).mode == ArmMode && Step(t, ReplayWake).duty == DutyFor(s.curve, x.throttle, x.direction)
  {
    LossKeepsRecorder(s, lost, back);
    assert BitRecord in {BitRecord, BitReplay} - {BitCross} && BitReplay in {BitRecord, BitReplay} - {BitCross};
    ArmPress(AfterLoss(s, lost, back), press);
    WakeMoves(Handle(AfterLoss(s, lost, back), press), s.rec, s.curve);
  }

  lemma OrphanPress(s: Rover, p: Packet)
    requires s.mode == Driving && s.rec.recording && Presses(s, p, BitRecord) && !Presses(s, p, BitReplay)
    ensures var t := Handle(s, p); t.mode != Recording && !t.rec.recording
  {
    assert BitConnected in WordOf(p.pad);
  }

  /** A controller lost during a recording: the recorder stays on, so that the next press of the
      record button switches it off instead of starting a recording. */
  lemma RecordingSurvivesLoss(s: Rover, lost: Packet, back: Packet, press: Packet)
    requires Inv(s) && s.mode == Recording && LostAndBack(s, lost, back, press, BitRecord)
    ensures AfterLoss(s, lost, back).rec.recording && AfterLoss(s, lost, back).mode == Driving
    ensures var t := Handle(AfterLoss(s, lost, back), press); t.mode != Recording && !t.rec.recording
  {
    LossKeepsRecorder(s, lost, back);
    assert BitReplay in {BitRecord, BitReplay} - {BitRecord};
    OrphanPress(AfterLoss(s, lost, back), press);
  }

  // ---- the arm ----

  /** In arm mode a packet commands the arm by all four axes, and nothing else. */
  lemma ArmPacket(s: Rover, p: Pad, now: nat)
    requires Inv(s) && s.mode == ArmMode && |s.arm.queue| < A.CAPACITY
    requires p.connected && !IsNow(s.word, WordOf(p), BitCross)
    ensures var t := ProcessPad(s, p, now);
      && t.mode == ArmMode && t.duty == s.duty && t.rec == s.rec && t.arm.angles == s.arm.angles
      && A.Latest(t.arm) == A.CommandFor(p.lx, p.ly, p.rx, p.ry)
  {
    assert BitConnected in WordOf(p);
  }

  // ---- trigger locks ----

  /** Leaving autonomous mode leaves the triggers locked; leaving any other locking mode by a
      packet or by the end of a replay unlocks them. */
  lemma LeavingUnlocksIff(s: Rover, m: Message, now: nat)
    requires Inv(s) && s.mode in {ArmMode, Replaying, Autonomous, Error}
    requires HandleMessage(s, m, now).mode != s.mode
    ensures HandleMessage(s, m, now).locked <==> s.mode == Autonomous
  {
    match s.mode
    case ArmMode =>
    case Replaying =>
    case Autonomous =>
    case Error =>
  }
}
