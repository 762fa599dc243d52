/** The arm in the runs of the whole rover: what a stop means for it once arm mode is left. */
module RoverArm {
  import opened PadData
  import opened Messages
  import opened Rover
  import opened RoverInvariants
  import A = Arm

  predicate OutsideArmMode(s: Rover, run: seq<Action>)
    requires IsRun(s, run)
    decreases run
  {
    s.mode != ArmMode && (run != [] ==> OutsideArmMode(Step(s, run[0]), run[1..]))
  }

  lemma DrivingReplayArm(s: Rover, e: Event)
    requires e.PadEvent? && DrivingReplay(s, e).mode != ArmMode
    ensures DrivingReplay(s, e).arm == s.arm
  {
  }

  lemma DrivingArm(s: Rover, e: Event, now: nat)
    requires WhenDriving(s, e, now).mode != ArmMode
    ensures WhenDriving(s, e, now).arm == s.arm
  {
    if e.PadEvent? && !Was(s.word, e.word, BitConnected) {
      if IsNow(s.word, e.word, BitRecord) && !ToggleRecord(s, now).rec.recording {
        DrivingReplayArm(ToggleRecord(s, now), e);
      } else if !IsNow(s.word, e.word, BitRecord) {
        DrivingReplayArm(s, e);
      }
    }
  }

  lemma DispatchArm(s: Rover, e: Event, now: nat)
    requires s.mode != ArmMode && Dispatch(s, e, now).mode != ArmMode
    ensures Dispatch(s, e, now).arm == s.arm
  {
    match s.mode
    case Driving => DrivingArm(s, e, now);
    case Recording =>
    case Replaying =>
    case Error =>
    case Autonomous =>
    case Disconnected =>
  }

  /** Outside arm mode the main task does not touch the arm. */
  lemma MainArm(s: Rover, now: nat)
    requires Can(s, Main(now)) && s.mode != ArmMode && Step(s, Main(now)).mode != ArmMode
    ensures Step(s, Main(now)).arm == s.arm
  {
    var taken, m := s.(queue := s.queue[1..]), s.queue[0];
    if m.Ps5? {
      var p := Received(m.frame);
      if p.latest { DispatchArm(taken, PadEvent(p, WordOf(p)), now); }
    } else if m != StopMain {
      DispatchArm(taken, Signal(m), now);
    }
  }

  predicate Stopped(s: Rover) { A.Latest(s.arm) == A.Stop }

  lemma StoppedStep(s: Rover, a: Action)
    requires Stopped(s) && Can(s, a) && s.mode != ArmMode && Step(s, a).mode != ArmMode
    ensures Stopped(Step(s, a)) && Step(s, a).arm.angles == s.arm.angles
  {
    match a
    case Main(now) => MainArm(s, now);
    case ArmReceive => A.StepRefines(s.arm, A.DoReceive);
    case ArmTick => A.StepRefines(s.arm, A.DoTick);
    case ReplayTop =>
    case ReplayWake =>
    case Arrive(_) =>
  }

  /** With a stop as the latest command, no run outside arm mode moves the arm, whatever the other
      tasks do. */
  lemma {:induction false} StoppedOutside(s: Rover, run: seq<Action>)
    requires Stopped(s) && IsRun(s, run) && OutsideArmMode(s, run)
    ensures Stopped(After(s, run)) && After(s, run).arm.angles == s.arm.angles
    decreases run
  {
    if run != [] {
      StoppedStep(s, run[0]);
      StoppedOutside(Step(s, run[0]), run[1..]);
    }
  }

  lemma LeavingPad(s: Rover, p: Pad, now: nat)
    requires Inv(s) && s.mode == ArmMode && ProcessPad(s, p, now).mode != ArmMode
    ensures ProcessPad(s, p, now).arm == A.ArmEnable(s.arm, false)
  {
  }

  /** The step that leaves arm mode hands the arm its stop: it is the latest command afterwards
      exactly when the arm's queue has room for it, or a stop was the latest already. */
  lemma LeavingStopsIff(s: Rover, a: Action)
    requires Inv(s) && s.mode == ArmMode && Can(s, a) && Step(s, a).mode != ArmMode
    ensures Step(s, a).arm.angles == s.arm.angles
    ensures Stopped(Step(s, a)) <==> |s.arm.queue| < A.CAPACITY || Stopped(s)
  {
    assert a.Main? && s.queue[0].Ps5?;
    LeavingPad(s.(queue := s.queue[1..]), Received(s.queue[0].frame), a.now);
    A.DisableStopsIffAccepted(s.arm);
  }

  /** Leaving arm mode with room in the arm's queue freezes the arm until arm mode is entered again. */
  lemma LeavingFreezes(s: Rover, a: Action, run: seq<Action>)
    requires Inv(s) && s.mode == ArmMode && Can(s, a) && (|s.arm.queue| < A.CAPACITY || Stopped(s))
    requires IsRun(Step(s, a), run) && OutsideArmMode(Step(s, a), run)
    ensures After(Step(s, a), run).arm.angles == s.arm.angles
  {
    LeavingStopsIff(s, a);
    StoppedOutside(Step(s, a), run);
  }
}
